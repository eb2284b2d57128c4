/** Advancing one region from its first round to its champion (simulateRegion in
    src/utils/simulator.ts). Games consume the draw sequence one draw per game, in the
    order the games are played.

    The bracket logic is stated for any game rule: a function from the two teams and the
    game's draw to the winner. The region the source simulates is the one played with
    Game.SimulateGame (RegionLog, SimulateRegion); the properties of the bracket itself
    hold for every rule that picks one of the two sides (PicksSide). */
module Region {
  import opened TournamentTypes
  import opened Game
  import opened Seeding

  /** Decides a game between two teams from one draw. */
  type GameRule = (Team, Team, real) -> Team

  /** The rule always names one of the two teams as winner. */
  ghost predicate PicksSide(game: GameRule)
  {
    forall team1, team2, draw :: game(team1, team2, draw) == team1 || game(team1, team2, draw) == team2
  }

  /** The source's game rule picks one of the two sides. */
  lemma SimulateGamePicksSide()
    ensures PicksSide(SimulateGame)
  {
    forall team1, team2, draw
      ensures SimulateGame(team1, team2, draw) == team1 || SimulateGame(team1, team2, draw) == team2
    {
    }
  }

  /** Plays matchup m with one draw: the winner the rule names, the other team as loser,
      and the round being played. */
  function Decide(game: GameRule, m: Matchup, draw: real, roundNumber: int): SimulationResult
  {
    var winner := game(m.team1, m.team2, draw);
    SimulationResult(winner, if winner == m.team1 then m.team2 else m.team1, roundNumber)
  }

  /** With a rule that picks a side, a decided game names the matchup's two teams as
      winner and loser, in one order or the other. */
  lemma DecideNamesBothTeams(game: GameRule, m: Matchup, draw: real, roundNumber: int)
    requires PicksSide(game)
    ensures var r := Decide(game, m, draw, roundNumber);
      && ((r.winner == m.team1 && r.loser == m.team2) || (r.winner == m.team2 && r.loser == m.team1))
      && r.round == roundNumber
  {
    assert game(m.team1, m.team2, draw) == m.team1 || game(m.team1, m.team2, draw) == m.team2;
  }

  /** The results of one round, game i decided by draws[i]. */
  function PlayRound(game: GameRule, round: seq<Matchup>, roundNumber: int, draws: seq<real>): (r: seq<SimulationResult>)
    requires |round| <= |draws|
    ensures |r| == |round|
  {
    seq(|round|, i requires 0 <= i < |round| => Decide(game, round[i], draws[i], roundNumber))
  }

  function Winners(results: seq<SimulationResult>): (w: seq<Team>)
    ensures |w| == |results|
  {
    seq(|results|, i requires 0 <= i < |results| => results[i].winner)
  }

  /** The stride-2 pairing of later rounds: winners 2k and 2k + 1 meet. */
  function PairConsecutive(winners: seq<Team>, roundNumber: int): (next: seq<Matchup>)
    ensures |next| == |winners| / 2
  {
    seq(|winners| / 2, k requires 0 <= k < |winners| / 2 => Matchup(winners[2 * k], winners[2 * k + 1], roundNumber))
  }

  /** The next round's matchups: none when at most one winner is left, the four hard-coded
      pairs after round 1, the stride-2 pairing otherwise. The requires excludes the inputs
      on which the source would read past the end of the winners. */
  function NextRound(winners: seq<Team>, roundNumber: int): seq<Matchup>
    requires |winners| <= 1 || (roundNumber == 1 && |winners| >= 8) || (roundNumber != 1 && |winners| % 2 == 0)
  {
    if |winners| <= 1 then []
    else if roundNumber == 1 then
      [Matchup(winners[0], winners[1], roundNumber + 1), Matchup(winners[2], winners[3], roundNumber + 1),
       Matchup(winners[4], winners[5], roundNumber + 1), Matchup(winners[6], winners[7], roundNumber + 1)]
    else PairConsecutive(winners, roundNumber + 1)
  }

  /** On every input the source pairs without reading past the winners, all three branches
      agree: next-round matchup k pits the winner of game 2k against the winner of game
      2k + 1, tagged with the following round. */
  lemma NextRoundPairsConsecutiveWinners(winners: seq<Team>, roundNumber: int)
    requires |winners| <= 1 || (roundNumber == 1 && |winners| == 8) || (roundNumber != 1 && |winners| % 2 == 0)
    ensures NextRound(winners, roundNumber) == PairConsecutive(winners, roundNumber + 1)
  {
  }

  /** Round sizes on which the source never reads past the winners: round 1 has 0, 1 or 8
      matchups and a later round 0, 1, 2, 4 or 8. */
  predicate WellSized(n: nat, roundNumber: int)
  {
    roundNumber >= 1 && (n == 0 || n == 1 || n == 8 || (roundNumber > 1 && (n == 2 || n == 4)))
  }

  /** Games a single-elimination bracket that starts with n matchups plays: every game but
      the last eliminates a team that goes on to meet another. */
  function Games(n: nat): nat
  {
    if n == 0 then 0 else 2 * n - 1
  }

  /** The matchups of the round after `round`: its winners paired two by two. */
  function Advance(game: GameRule, round: seq<Matchup>, roundNumber: int, draws: seq<real>): (next: seq<Matchup>)
    requires |round| <= |draws|
    ensures |next| == |round| / 2
  {
    PairConsecutive(Winners(PlayRound(game, round, roundNumber, draws)), roundNumber + 1)
  }

  /** The result log from `round` on: the round's results, then those of the rounds after it. */
  function RegionFrom(game: GameRule, round: seq<Matchup>, roundNumber: int, draws: seq<real>): (log: seq<SimulationResult>)
    requires WellSized(|round|, roundNumber) && |draws| >= Games(|round|)
    ensures |log| == Games(|round|)
    decreases |round|
  {
    if round == [] then []
    else
      PlayRound(game, round, roundNumber, draws)
        + RegionFrom(game, Advance(game, round, roundNumber, draws), roundNumber + 1, draws[|round|..])
  }

  /** The matchups in the order they are played: `round`, then the later rounds. */
  function RegionSchedule(game: GameRule, round: seq<Matchup>, roundNumber: int, draws: seq<real>): (schedule: seq<Matchup>)
    requires WellSized(|round|, roundNumber) && |draws| >= Games(|round|)
    ensures |schedule| == Games(|round|)
    decreases |round|
  {
    if round == [] then []
    else round + RegionSchedule(game, Advance(game, round, roundNumber, draws), roundNumber + 1, draws[|round|..])
  }

  /** The region can be simulated: its first round has 0, 1 or 8 matchups. */
  predicate Playable(teams: seq<Team>, region: string)
  {
    WellSized(|FirstRound(teams, region)|, 1)
  }

  /** The result log of `region`, every game decided by SimulateGame. */
  function RegionLog(teams: seq<Team>, region: string, draws: seq<real>): seq<SimulationResult>
    requires Playable(teams, region)
    requires |draws| >= Games(|FirstRound(teams, region)|)
  {
    RegionFrom(SimulateGame, FirstRound(teams, region), 1, draws)
  }

  /** The region champion: the winner of the last game in the log. */
  function Champion(log: seq<SimulationResult>): Team
    requires |log| > 0
  {
    log[|log| - 1].winner
  }

  lemma PlayRoundExtend(game: GameRule, round: seq<Matchup>, i: nat, roundNumber: int, draws: seq<real>)
    requires i < |round| <= |draws|
    ensures PlayRound(game, round[..i + 1], roundNumber, draws)
      == PlayRound(game, round[..i], roundNumber, draws) + [Decide(game, round[i], draws[i], roundNumber)]
  {
  }

  lemma WinnersExtend(results: seq<SimulationResult>, r: SimulationResult)
    ensures Winners(results + [r]) == Winners(results) + [r.winner]
  {
  }

  lemma PairConsecutiveExtend(winners: seq<Team>, i: nat, roundNumber: int)
    requires i % 2 == 0 && i + 2 <= |winners|
    ensures PairConsecutive(winners[..i + 2], roundNumber)
      == PairConsecutive(winners[..i], roundNumber) + [Matchup(winners[i], winners[i + 1], roundNumber)]
  {
  }

  lemma AppendAssoc<T>(a: seq<T>, b: seq<T>, c: seq<T>)
    ensures a + b + c == a + (b + c)
  {
  }

  /** One step of the region loop, from draw `first` on: the log from a well-sized `round`
      is the round's results followed by the log from the round the source pairs next,
      which is well-sized again. */
  lemma RegionLoopStep(game: GameRule, round: seq<Matchup>, roundNumber: int, draws: seq<real>, first: nat)
    requires WellSized(|round|, roundNumber) && |round| > 0 && first + Games(|round|) <= |draws|
    ensures var played := PlayRound(game, round, roundNumber, draws[first..]);
      var next := NextRound(Winners(played), roundNumber);
      && WellSized(|next|, roundNumber + 1)
      && first + |round| + Games(|next|) <= |draws|
      && RegionFrom(game, round, roundNumber, draws[first..])
         == played + RegionFrom(game, next, roundNumber + 1, draws[first + |round|..])
  {
    var winners := Winners(PlayRound(game, round, roundNumber, draws[first..]));
    NextRoundPairsConsecutiveWinners(winners, roundNumber);
    assert draws[first..][|round|..] == draws[first + |round|..];
  }

  /** The pairing step of simulateRegion: nothing when at most one winner is left, the four
      hard-coded pairs after round 1, a stride-2 loop over the winners otherwise. */
  method PairWinners(roundWinners: seq<Team>, roundNumber: int) returns (nextRound: seq<Matchup>)
    requires |roundWinners| <= 1 || (roundNumber == 1 && |roundWinners| >= 8) || (roundNumber != 1 && |roundWinners| % 2 == 0)
    ensures nextRound == NextRound(roundWinners, roundNumber)
  {
    nextRound := [];
    if |roundWinners| > 1 {
      if roundNumber == 1 {
        nextRound := nextRound + [
          Matchup(roundWinners[0], roundWinners[1], roundNumber + 1),
          Matchup(roundWinners[2], roundWinners[3], roundNumber + 1),
          Matchup(roundWinners[4], roundWinners[5], roundNumber + 1),
          Matchup(roundWinners[6], roundWinners[7], roundNumber + 1)];
      } else {
        var i := 0;
        while i < |roundWinners|
          invariant 0 <= i <= |roundWinners| && i % 2 == 0
          invariant nextRound == PairConsecutive(roundWinners[..i], roundNumber + 1)
        {
          PairConsecutiveExtend(roundWinners, i, roundNumber + 1);
          nextRound := nextRound + [Matchup(roundWinners[i], roundWinners[i + 1], roundNumber + 1)];
          i := i + 2;
        }
        assert roundWinners[..i] == roundWinners;
      }
    }
  }

  /** The games step of simulateRegion: plays the round's matchups in order, game i with
      draws[first + i], collecting each result and each winner. */
  method PlayGames(game: GameRule, currentRound: seq<Matchup>, roundNumber: int, draws: seq<real>, first: nat)
    returns (played: seq<SimulationResult>, roundWinners: seq<Team>)
    requires first + |currentRound| <= |draws|
    ensures played == PlayRound(game, currentRound, roundNumber, draws[first..])
    ensures roundWinners == Winners(played)
  {
    ghost var roundDraws := draws[first..];
    played, roundWinners := [], [];
    for i := 0 to |currentRound|
      invariant played == PlayRound(game, currentRound[..i], roundNumber, roundDraws)
      invariant roundWinners == Winners(played)
    {
      var m := currentRound[i];
      var winner := game(m.team1, m.team2, draws[first + i]);
      var loser := if winner == m.team1 then m.team2 else m.team1;
      PlayRoundExtend(game, currentRound, i, roundNumber, roundDraws);
      WinnersExtend(played, SimulationResult(winner, loser, roundNumber));
      played := played + [SimulationResult(winner, loser, roundNumber)];
      roundWinners := roundWinners + [winner];
    }
    assert currentRound[..|currentRound|] == currentRound;
  }

  /** One pass of the region loop: plays the round's games from draw `first` on, then
      pairs their winners. The log from `currentRound` on is these results followed by
      the log from the paired round on, which is well-sized again. */
  method PlayRoundAndPair(game: GameRule, currentRound: seq<Matchup>, roundNumber: int, draws: seq<real>, first: nat)
    returns (played: seq<SimulationResult>, nextRound: seq<Matchup>)
    requires WellSized(|currentRound|, roundNumber) && |currentRound| > 0
    requires first + Games(|currentRound|) <= |draws|
    ensures |played| == |currentRound| && |nextRound| < |currentRound|
    ensures WellSized(|nextRound|, roundNumber + 1)
    ensures first + |currentRound| + Games(|nextRound|) <= |draws|
    ensures RegionFrom(game, currentRound, roundNumber, draws[first..])
      == played + RegionFrom(game, nextRound, roundNumber + 1, draws[first + |currentRound|..])
  {
    var roundWinners;
    played, roundWinners := PlayGames(game, currentRound, roundNumber, draws, first);
    nextRound := PairWinners(roundWinners, roundNumber);
    RegionLoopStep(game, currentRound, roundNumber, draws, first);
  }

  /** The round loop of simulateRegion: plays each round's matchups in order, appending one
      result per game, then pairs the round's winners for the next round, until no matchups
      are left. The draw cursor advances by one per game. */
  method PlayRounds(game: GameRule, firstRound: seq<Matchup>, draws: seq<real>) returns (results: seq<SimulationResult>)
    requires WellSized(|firstRound|, 1) && Games(|firstRound|) <= |draws|
    ensures results == RegionFrom(game, firstRound, 1, draws)
  {
    results := [];
    var currentRound := firstRound;
    var roundNumber := 1;
    var nextDraw := 0;
    while |currentRound| > 0
      invariant WellSized(|currentRound|, roundNumber)
      invariant nextDraw == |results| <= |draws|
      invariant nextDraw + Games(|currentRound|) <= |draws|
      invariant results + RegionFrom(game, currentRound, roundNumber, draws[nextDraw..]) == RegionFrom(game, firstRound, 1, draws)
      decreases |currentRound|
    {
      var played, nextRound := PlayRoundAndPair(game, currentRound, roundNumber, draws, nextDraw);
      AppendAssoc(results, played, RegionFrom(game, nextRound, roundNumber + 1, draws[nextDraw + |currentRound|..]));
      results := results + played;
      nextDraw := nextDraw + |currentRound|;
      currentRound := nextRound;
      roundNumber := roundNumber + 1;
    }
  }

  /** simulateRegion: builds the region's first round, then plays the rounds out with
      SimulateGame deciding every game. */
  method SimulateRegion(teams: seq<Team>, region: string, draws: seq<real>) returns (results: seq<SimulationResult>)
    requires Playable(teams, region)
    requires |draws| >= Games(|FirstRound(teams, region)|)
    ensures results == RegionLog(teams, region, draws)
    ensures |results| == Games(|FirstRound(teams, region)|)
  {
    var firstRound := GenerateFirstRound(teams, region);
    results := PlayRounds(SimulateGame, firstRound, draws);
  }

  /** Every matchup of `round` is tagged `roundNumber`. */
  predicate TaggedWith(round: seq<Matchup>, roundNumber: int)
  {
    forall i :: 0 <= i < |round| ==> round[i].round == roundNumber
  }

  /** The log and the schedule from a non-empty round: that round first, then the rest. */
  lemma RegionUnfold(game: GameRule, round: seq<Matchup>, roundNumber: int, draws: seq<real>)
    requires WellSized(|round|, roundNumber) && |draws| >= Games(|round|) && |round| > 0
    ensures RegionFrom(game, round, roundNumber, draws)
      == PlayRound(game, round, roundNumber, draws) + RegionFrom(game, Advance(game, round, roundNumber, draws), roundNumber + 1, draws[|round|..])
    ensures RegionSchedule(game, round, roundNumber, draws)
      == round + RegionSchedule(game, Advance(game, round, roundNumber, draws), roundNumber + 1, draws[|round|..])
  {
  }

  /** A region reads no draw past its own games: the log from `round` is the same when
      the draws are cut after the first Games(|round|) of them, or anywhere later. */
  lemma {:induction false} RegionFromReadsOwnDraws(game: GameRule, round: seq<Matchup>, roundNumber: int, draws: seq<real>, n: nat)
    requires WellSized(|round|, roundNumber) && Games(|round|) <= n <= |draws|
    ensures RegionFrom(game, round, roundNumber, draws[..n]) == RegionFrom(game, round, roundNumber, draws)
    decreases |round|
  {
    if round != [] {
      var cut := draws[..n];
      assert PlayRound(game, round, roundNumber, cut) == PlayRound(game, round, roundNumber, draws);
      var next := Advance(game, round, roundNumber, draws);
      assert cut[|round|..] == draws[|round|..][..n - |round|];
      RegionFromReadsOwnDraws(game, next, roundNumber + 1, draws[|round|..], n - |round|);
      RegionUnfold(game, round, roundNumber, draws);
      RegionUnfold(game, round, roundNumber, cut);
    }
  }

  /** One draw per game in log order: result k is matchup k of the schedule decided by
      draws[k], and carries that matchup's round. */
  lemma {:induction false} LogFollowsSchedule(game: GameRule, round: seq<Matchup>, roundNumber: int, draws: seq<real>)
    requires WellSized(|round|, roundNumber) && |draws| >= Games(|round|)
    requires TaggedWith(round, roundNumber)
    ensures forall k :: 0 <= k < Games(|round|) ==>
      RegionFrom(game, round, roundNumber, draws)[k]
        == Decide(game, RegionSchedule(game, round, roundNumber, draws)[k], draws[k], RegionSchedule(game, round, roundNumber, draws)[k].round)
    decreases |round|
  {
    if round != [] {
      var n := |round|;
      var next := Advance(game, round, roundNumber, draws);
      var rest := draws[n..];
      LogFollowsSchedule(game, next, roundNumber + 1, rest);
      RegionUnfold(game, round, roundNumber, draws);
      var log := RegionFrom(game, round, roundNumber, draws);
      var schedule := RegionSchedule(game, round, roundNumber, draws);
      var played := PlayRound(game, round, roundNumber, draws);
      var restLog := RegionFrom(game, next, roundNumber + 1, rest);
      var restSchedule := RegionSchedule(game, next, roundNumber + 1, rest);
      forall k | 0 <= k < Games(n)
        ensures log[k] == Decide(game, schedule[k], draws[k], schedule[k].round)
      {
        if k < n {
          assert log[k] == played[k];
          assert schedule[k] == round[k];
        } else {
          assert log[k] == restLog[k - n];
          assert schedule[k] == restSchedule[k - n];
          assert rest[k - n] == draws[k];
        }
      }
    }
  }

  /** The two teams of every matchup differ, and no team appears in two matchups. */
  ghost predicate DistinctParticipants(round: seq<Matchup>)
  {
    && (forall i :: 0 <= i < |round| ==> round[i].team1 != round[i].team2)
    && (forall i, j, t :: 0 <= i < |round| && 0 <= j < |round| && i != j && InMatch(t, round[i]) ==> !InMatch(t, round[j]))
  }

  /** In a round where no team appears twice, the loser of game i won no game of the round,
      and the winners of different games are different teams. */
  lemma RoundOutcomesDistinct(game: GameRule, round: seq<Matchup>, roundNumber: int, draws: seq<real>, i: nat, j: nat)
    requires PicksSide(game)
    requires |round| <= |draws| && DistinctParticipants(round)
    requires i < |round| && j < |round|
    ensures PlayRound(game, round, roundNumber, draws)[i].loser != Winners(PlayRound(game, round, roundNumber, draws))[j]
    ensures i != j ==> Winners(PlayRound(game, round, roundNumber, draws))[i] != Winners(PlayRound(game, round, roundNumber, draws))[j]
  {
    var played := PlayRound(game, round, roundNumber, draws);
    DecideNamesBothTeams(game, round[i], draws[i], roundNumber);
    DecideNamesBothTeams(game, round[j], draws[j], roundNumber);
    assert InMatch(played[i].loser, round[i]) && InMatch(played[i].winner, round[i]);
    assert InMatch(played[j].winner, round[j]);
  }

  /** Pairing pairwise different winners gives a round with distinct participants. */
  lemma PairingKeepsDistinct(winners: seq<Team>, roundNumber: int)
    requires forall i, j :: 0 <= i < |winners| && 0 <= j < |winners| && i != j ==> winners[i] != winners[j]
    ensures DistinctParticipants(PairConsecutive(winners, roundNumber))
  {
    var next := PairConsecutive(winners, roundNumber);
    forall k, l, t | 0 <= k < |next| && 0 <= l < |next| && k != l && InMatch(t, next[k])
      ensures !InMatch(t, next[l])
    {
      assert next[k] == Matchup(winners[2 * k], winners[2 * k + 1], roundNumber);
      assert next[l] == Matchup(winners[2 * l], winners[2 * l + 1], roundNumber);
    }
  }

  /** The next round again has distinct participants. */
  lemma AdvanceKeepsDistinct(game: GameRule, round: seq<Matchup>, roundNumber: int, draws: seq<real>)
    requires PicksSide(game)
    requires |round| <= |draws| && DistinctParticipants(round)
    ensures DistinctParticipants(Advance(game, round, roundNumber, draws))
  {
    var winners := Winners(PlayRound(game, round, roundNumber, draws));
    forall i, j | 0 <= i < |winners| && 0 <= j < |winners| && i != j
      ensures winners[i] != winners[j]
    {
      RoundOutcomesDistinct(game, round, roundNumber, draws, i, j);
    }
    PairingKeepsDistinct(winners, roundNumber + 1);
  }

  /** After a round of two or more games, the log goes on with the next round's log, and
      the champion is that log's champion. */
  lemma RegionFromSplit(game: GameRule, round: seq<Matchup>, roundNumber: int, draws: seq<real>)
    requires WellSized(|round|, roundNumber) && |draws| >= Games(|round|) && |round| > 1
    ensures RegionFrom(game, round, roundNumber, draws)
      == PlayRound(game, round, roundNumber, draws) + RegionFrom(game, Advance(game, round, roundNumber, draws), roundNumber + 1, draws[|round|..])
    ensures Champion(RegionFrom(game, round, roundNumber, draws))
      == Champion(RegionFrom(game, Advance(game, round, roundNumber, draws), roundNumber + 1, draws[|round|..]))
  {
    var log := RegionFrom(game, round, roundNumber, draws);
    var rest := RegionFrom(game, Advance(game, round, roundNumber, draws), roundNumber + 1, draws[|round|..]);
    assert log == PlayRound(game, round, roundNumber, draws) + rest;
    assert log[|log| - 1] == rest[|rest| - 1];
  }

  /** The champion won a game of the first round given: game j. */
  lemma {:induction false} ChampionWonInRound(game: GameRule, round: seq<Matchup>, roundNumber: int, draws: seq<real>) returns (j: nat)
    requires PicksSide(game)
    requires WellSized(|round|, roundNumber) && |draws| >= Games(|round|) && |round| > 0
    ensures j < |round|
    ensures Champion(RegionFrom(game, round, roundNumber, draws)) == Winners(PlayRound(game, round, roundNumber, draws))[j]
    decreases |round|
  {
    var n := |round|;
    var played := PlayRound(game, round, roundNumber, draws);
    if n == 1 {
      j := 0;
      assert RegionFrom(game, round, roundNumber, draws) == played;
    } else {
      var next := Advance(game, round, roundNumber, draws);
      RegionFromSplit(game, round, roundNumber, draws);
      var k := ChampionWonInRound(game, next, roundNumber + 1, draws[n..]);
      var c := Champion(RegionFrom(game, next, roundNumber + 1, draws[n..]));
      DecideNamesBothTeams(game, next[k], draws[n..][k], roundNumber + 1);
      assert c == PlayRound(game, next, roundNumber + 1, draws[n..])[k].winner;
      assert next[k] == Matchup(Winners(played)[2 * k], Winners(played)[2 * k + 1], roundNumber + 1);
      j := if c == next[k].team1 then 2 * k else 2 * k + 1;
    }
  }

  /** Team t loses no game of `log`. */
  ghost predicate NeverLoses(t: Team, log: seq<SimulationResult>)
  {
    forall k :: 0 <= k < |log| ==> log[k].loser != t
  }

  lemma NeverLosesConcat(t: Team, a: seq<SimulationResult>, b: seq<SimulationResult>)
    requires NeverLoses(t, a) && NeverLoses(t, b)
    ensures NeverLoses(t, a + b)
  {
  }

  /** In a round where no team appears twice, the winner of game j loses no game of it. */
  lemma WinnerLosesNoGameOfRound(game: GameRule, round: seq<Matchup>, roundNumber: int, draws: seq<real>, j: nat)
    requires PicksSide(game)
    requires |round| <= |draws| && DistinctParticipants(round) && j < |round|
    ensures NeverLoses(Winners(PlayRound(game, round, roundNumber, draws))[j], PlayRound(game, round, roundNumber, draws))
  {
    forall i | 0 <= i < |round|
      ensures PlayRound(game, round, roundNumber, draws)[i].loser != Winners(PlayRound(game, round, roundNumber, draws))[j]
    {
      RoundOutcomesDistinct(game, round, roundNumber, draws, i, j);
    }
  }

  /** When no team appears twice in the first round, the champion is never the loser of
      any game in the log. */
  lemma {:induction false} ChampionNeverLoses(game: GameRule, round: seq<Matchup>, roundNumber: int, draws: seq<real>)
    requires PicksSide(game)
    requires WellSized(|round|, roundNumber) && |draws| >= Games(|round|) && |round| > 0
    requires DistinctParticipants(round)
    ensures NeverLoses(Champion(RegionFrom(game, round, roundNumber, draws)), RegionFrom(game, round, roundNumber, draws))
    decreases |round|
  {
    var log := RegionFrom(game, round, roundNumber, draws);
    var played := PlayRound(game, round, roundNumber, draws);
    var j := ChampionWonInRound(game, round, roundNumber, draws);
    WinnerLosesNoGameOfRound(game, round, roundNumber, draws, j);
    if |round| == 1 {
      assert log == played;
    } else {
      var next := Advance(game, round, roundNumber, draws);
      RegionFromSplit(game, round, roundNumber, draws);
      AdvanceKeepsDistinct(game, round, roundNumber, draws);
      ChampionNeverLoses(game, next, roundNumber + 1, draws[|round|..]);
      NeverLosesConcat(Champion(log), played, RegionFrom(game, next, roundNumber + 1, draws[|round|..]));
    }
  }

  /** Team t is a team of the roster that plays in `region`. */
  ghost predicate FromRegion(t: Team, teams: seq<Team>, region: string)
  {
    t in teams && t.region == region
  }

  /** Both teams of every matchup of `round` come from `region`. */
  ghost predicate RoundFrom(round: seq<Matchup>, teams: seq<Team>, region: string)
  {
    forall i :: 0 <= i < |round| ==> FromRegion(round[i].team1, teams, region) && FromRegion(round[i].team2, teams, region)
  }

  /** The winner and the loser of every result of `log` come from `region`. */
  ghost predicate LogFrom(log: seq<SimulationResult>, teams: seq<Team>, region: string)
  {
    forall k :: 0 <= k < |log| ==> FromRegion(log[k].winner, teams, region) && FromRegion(log[k].loser, teams, region)
  }

  /** A round whose teams come from `region` produces results, and a next round, whose
      teams come from `region`. */
  lemma RoundStaysInRegion(game: GameRule, round: seq<Matchup>, roundNumber: int, draws: seq<real>, teams: seq<Team>, region: string)
    requires PicksSide(game)
    requires |round| <= |draws| && RoundFrom(round, teams, region)
    ensures LogFrom(PlayRound(game, round, roundNumber, draws), teams, region)
    ensures RoundFrom(Advance(game, round, roundNumber, draws), teams, region)
  {
    var played := PlayRound(game, round, roundNumber, draws);
    forall k | 0 <= k < |played|
      ensures FromRegion(played[k].winner, teams, region) && FromRegion(played[k].loser, teams, region)
    {
      DecideNamesBothTeams(game, round[k], draws[k], roundNumber);
    }
    var winners := Winners(played);
    var next := Advance(game, round, roundNumber, draws);
    forall k | 0 <= k < |next|
      ensures FromRegion(next[k].team1, teams, region) && FromRegion(next[k].team2, teams, region)
    {
      assert next[k] == Matchup(winners[2 * k], winners[2 * k + 1], roundNumber + 1);
    }
  }

  /** Every game from `round` on is played between teams of `region`. */
  lemma {:induction false} RegionFromStaysInRegion(game: GameRule, round: seq<Matchup>, roundNumber: int, draws: seq<real>, teams: seq<Team>, region: string)
    requires PicksSide(game)
    requires WellSized(|round|, roundNumber) && |draws| >= Games(|round|)
    requires RoundFrom(round, teams, region)
    ensures LogFrom(RegionFrom(game, round, roundNumber, draws), teams, region)
    decreases |round|
  {
    if round != [] {
      var next := Advance(game, round, roundNumber, draws);
      RoundStaysInRegion(game, round, roundNumber, draws, teams, region);
      RegionFromStaysInRegion(game, next, roundNumber + 1, draws[|round|..], teams, region);
      RegionUnfold(game, round, roundNumber, draws);
      var played := PlayRound(game, round, roundNumber, draws);
      var rest := RegionFrom(game, next, roundNumber + 1, draws[|round|..]);
      var log: seq<SimulationResult> := played + rest;
      forall k | 0 <= k < |log|
        ensures FromRegion(log[k].winner, teams, region) && FromRegion(log[k].loser, teams, region)
      {
        if k >= |played| {
          assert log[k] == rest[k - |played|];
        }
      }
    }
  }

  /** The champion of a bracket whose teams all come from `region` is a team of that region. */
  lemma ChampionFromRegion(game: GameRule, round: seq<Matchup>, draws: seq<real>, teams: seq<Team>, region: string)
    requires PicksSide(game)
    requires WellSized(|round|, 1) && |round| > 0 && |draws| >= Games(|round|)
    requires RoundFrom(round, teams, region)
    ensures FromRegion(Champion(RegionFrom(game, round, 1, draws)), teams, region)
  {
    RegionFromStaysInRegion(game, round, 1, draws, teams, region);
  }

  /** In a bracket of `region` where no team appears twice, a team loses no game when it
      is the bracket's champion or plays for another region. */
  lemma UnbeatenInRegion(game: GameRule, round: seq<Matchup>, draws: seq<real>, teams: seq<Team>, region: string, t: Team)
    requires PicksSide(game)
    requires WellSized(|round|, 1) && |round| > 0 && |draws| >= Games(|round|)
    requires RoundFrom(round, teams, region) && DistinctParticipants(round)
    requires t == Champion(RegionFrom(game, round, 1, draws)) || t.region != region
    ensures NeverLoses(t, RegionFrom(game, round, 1, draws))
  {
    var log := RegionFrom(game, round, 1, draws);
    if t == Champion(log) {
      ChampionNeverLoses(game, round, 1, draws);
    } else {
      RegionFromStaysInRegion(game, round, 1, draws, teams, region);
      forall k | 0 <= k < |log|
        ensures log[k].loser != t
      {
        assert FromRegion(log[k].loser, teams, region);
      }
    }
  }

  /** Both teams of every first-round matchup are teams of the roster from that region. */
  lemma FirstRoundFrom(teams: seq<Team>, region: string)
    ensures RoundFrom(FirstRound(teams, region), teams, region)
  {
    var r1 := FirstRound(teams, region);
    FirstRoundFollowsFixedOrder(teams, region);
    forall i | 0 <= i < |r1|
      ensures FromRegion(r1[i].team1, teams, region) && FromRegion(r1[i].team2, teams, region)
    {
      assert r1[i] in r1;
    }
  }

  /** A region no team belongs to yields an empty log. */
  lemma UnknownRegionIsEmpty(teams: seq<Team>, region: string, draws: seq<real>)
    requires forall t :: t in teams ==> t.region != region
    ensures FirstRound(teams, region) == [] && Playable(teams, region)
    ensures RegionLog(teams, region, draws) == []
  {
    UnknownRegionFirstRound(teams, region);
  }

  /** In a complete region the first round is tagged 1 and no team appears in it twice:
      every team of it has its own seed. */
  lemma CompleteFirstRoundDistinct(teams: seq<Team>, region: string)
    requires Complete(teams, region)
    ensures |FirstRound(teams, region)| == 8
    ensures TaggedWith(FirstRound(teams, region), 1)
    ensures DistinctParticipants(FirstRound(teams, region))
  {
    var r1 := FirstRound(teams, region);
    CompleteFirstRound(teams, region);
    FirstRoundFollowsFixedOrder(teams, region);
    forall i | 0 <= i < |r1| ensures r1[i].round == 1 {
      assert r1[i] in r1;
    }
    FirstRoundPairsDistinct();
    forall i | 0 <= i < 8
      ensures (r1[i].team1.seed, r1[i].team2.seed) == FirstRoundPairs[i]
    {
      assert Seeds(r1)[i] == FirstRoundPairs[i];
    }
  }

  /** A region that starts with eight matchups plays rounds 1, 2, 3 and 4 of sizes 8, 4, 2, 1. */
  lemma EightTeamRoundsTags(game: GameRule, round: seq<Matchup>, draws: seq<real>)
    requires |round| == 8 && |draws| >= 15
    ensures var log := RegionFrom(game, round, 1, draws);
      && |log| == 15
      && (forall k :: 0 <= k < 8 ==> log[k].round == 1)
      && (forall k :: 8 <= k < 12 ==> log[k].round == 2)
      && (forall k :: 12 <= k < 14 ==> log[k].round == 3)
      && log[14].round == 4
  {
    var log := RegionFrom(game, round, 1, draws);
    var r2 := Advance(game, round, 1, draws);
    var d2 := draws[8..];
    var r3 := Advance(game, r2, 2, d2);
    var d3 := d2[4..];
    var r4 := Advance(game, r3, 3, d3);
    var d4 := d3[2..];
    assert log[8..] == RegionFrom(game, r2, 2, d2);
    assert log[12..] == RegionFrom(game, r3, 3, d3);
    assert log[14..] == RegionFrom(game, r4, 4, d4);
  }

  /** A complete region plays 15 games: eight in round 1, four in round 2, two in round 3
      and one in round 4; result k is decided by draws[k]; its champion is a team of the
      region and never loses a game of the log. */
  lemma CompleteRegion(teams: seq<Team>, region: string, draws: seq<real>)
    requires Complete(teams, region)
    requires |draws| >= 15
    ensures |FirstRound(teams, region)| == 8 && Playable(teams, region)
    ensures var log := RegionLog(teams, region, draws);
      && |log| == 15
      && (forall k :: 0 <= k < 8 ==> log[k].round == 1)
      && (forall k :: 8 <= k < 12 ==> log[k].round == 2)
      && (forall k :: 12 <= k < 14 ==> log[k].round == 3)
      && log[14].round == 4
      && (forall k :: 0 <= k < 15 ==>
            log[k] == Decide(SimulateGame, RegionSchedule(SimulateGame, FirstRound(teams, region), 1, draws)[k], draws[k], log[k].round))
      && NeverLoses(Champion(log), log)
      && Champion(log) in teams && Champion(log).region == region
  {
    var r1 := FirstRound(teams, region);
    SimulateGamePicksSide();
    CompleteFirstRoundDistinct(teams, region);
    EightTeamRoundsTags(SimulateGame, r1, draws);
    LogFollowsSchedule(SimulateGame, r1, 1, draws);
    ChampionNeverLoses(SimulateGame, r1, 1, draws);
    var j := ChampionWonInRound(SimulateGame, r1, 1, draws);
    DecideNamesBothTeams(SimulateGame, r1[j], draws[j], 1);
    assert r1[j] in r1;
    FirstRoundFollowsFixedOrder(teams, region);
  }
}
