# March Madness simulator — the simulation engine in Dafny

This project models the engine of a 64-team single-elimination basketball tournament
simulator:

- the upset table and the decision of one game (`getUpsetProbability`, `simulateGame`);
- the seeding of a region's first round (`generateFirstRound`);
- the advancement of a region from its first round to its champion (`simulateRegion`);
- the Final Four and the championship (the computation inside `simulateTournament`).

Every call of `Math.random()` is a draw passed in explicitly. `SimulateGame` takes one
`real`. A region or a tournament takes a `seq<real>` and uses one draw per game, in the
order the games are played. The engine is then deterministic, and its behaviour can be
stated and proved.

Modules, one per file:

- `TournamentTypes` (`types.dfy`): the `Team`, `Matchup` and `SimulationResult` records as
  datatypes.
- `Game` (`game.dfy`): the upset table, the upset probability with its 0.3 default, and
  `SimulateGame`. These are pure functions, as in the source.
- `Seeding` (`seeding.dfy`): `GenerateFirstRound`, a method with the source's loop over
  the eight fixed pairs. It is proved equal to the function `FirstRound`, and the seeding
  properties are proved about `FirstRound`.
- `Region` (`region.dfy`): `SimulateRegion`, with the source's `while` loop over rounds
  (`PlayRounds`), its inner `for` loop over games (`PlayGames`) and its pairing step
  (`PairWinners`). The loop is proved equal to the function `RegionFrom`, the result log
  from a given round on.
  - The bracket logic is written for any game rule that names one of the two teams as
    the winner (`PicksSide`). `SimulateRegion` and `RegionLog` plug in `SimulateGame`.
  - Bracket properties are proved once for every such rule: distinct participants, the
    champion never losing, the order in which draws are used, and every team coming from
    its region.
- `Bracket` (`bracket.dfy`): `simulateTournament` as the function `Tournament`.
  - The four regions play in the order East, West, South, Midwest, each on the draws
    after the previous region's.
  - Then East plays Midwest and South plays West (round 5), and the two semifinal winners
    meet (round 6).
  - `Tournament` returns `None` exactly when the source would throw, because some region
    does not crown a champion.

## Model

| member | source | states |
|---|---|---|
| Game.UpsetProbability | src/utils/simulator.ts:14-17 | The probability used for any pair of seeds lies in (0, 0.5]. It is a table entry, or 0.3 when the pair has none. |
| Game.UpsetTableLookup | src/utils/simulator.ts:2-17 | The table has an entry for (stronger, weaker) exactly when the pair is s v 17−s with 1 ≤ s ≤ 8. Such a pair gets its entry. Every other pair gets 0.3, including later-round pairs such as (1, 8), reversed pairs and equal seeds. |
| Game.FirstRoundUpsetsGrowWithSeed | src/utils/simulator.ts:2-11 | Across the first-round classes 1v16 … 8v9, the upset probability strictly increases as the seeds get closer. |
| Game.SeedGapFactor | src/utils/simulator.ts:25-26 | The scale factor 1 + \|s1 − s2\|/32 is at least 1, and equals 1 exactly when the seeds are equal. |
| Game.SimulateGame | src/utils/simulator.ts:20-29 | The winner is one of the two teams. When the seeds differ, the weaker seed wins exactly when draw × factor is below the probability for (stronger, weaker). On equal seeds team2 counts as the stronger side, and team1 wins exactly when the draw is below 0.3. |
| Game.SimulateGameIgnoresOrder | src/utils/simulator.ts:20-28 | When the seeds differ, swapping the two teams does not change the winner. |
| Game.UpsetBelowThreshold | src/utils/simulator.ts:22-28 | The underdog wins exactly when the draw is below probability/factor. That threshold is positive and lies strictly below the table's probability, so the scaling only makes upsets rarer. |
| Game.HighDrawFavoursStronger | src/utils/simulator.ts:2-28 | A draw of at least 0.5 always makes the stronger seed win (team2 on equal seeds). |
| Seeding.RegionTeams | src/utils/simulator.ts:33 | The filtered roster holds exactly the roster's teams of that region. |
| Seeding.FindSeed | src/utils/simulator.ts:42-43 | A team is found exactly when the region has a team with that seed, and the team found has that seed. |
| Seeding.GenerateFirstRound | src/utils/simulator.ts:32-50 | The loop over the fixed pairs yields `FirstRound`: a matchup for each pair whose two seeds are both found, in pair order. |
| Seeding.PairingsKeepPresentPairs | src/utils/simulator.ts:41-47 | The seeds of the matchups built are, in order, the pairs whose two seeds are present. Every matchup is tagged round 1 and takes both teams from the region. |
| Seeding.FirstRoundFollowsFixedOrder | src/utils/simulator.ts:37-49 | The first round follows the order 1v16, 8v9, 5v12, 4v13, 6v11, 3v14, 7v10, 2v15 and keeps exactly the present pairs. It has at most 8 matchups, all round 1. Each matchup is two roster teams of the region, a seed s ≤ 8 against 17 − s. |
| Seeding.FirstRoundOmitsExactlyMissing | src/utils/simulator.ts:41-46 | Fixed pair k is played exactly when both of its seeds are in the region. |
| Seeding.CompleteFirstRound | src/utils/simulator.ts:37-47 | A region with all sixteen seeds plays the eight fixed pairs, in the fixed order. |
| Seeding.EightMatchupsIffComplete | src/utils/simulator.ts:37-47 | A region has eight first-round matchups exactly when it has all sixteen seeds. |
| Seeding.UnknownRegionFirstRound | src/utils/simulator.ts:33-47 | A region no team belongs to has no first-round matchups. |
| Seeding.FirstRoundPairsDistinct | src/utils/simulator.ts:37-39 | Every fixed pair is s v 17 − s with s ≤ 8, and no two pairs share a stronger seed, so the sixteen seeds are all different. |
| Region.SimulateGamePicksSide | src/utils/simulator.ts:20-29 | `simulateGame` always returns one of its two arguments, so the region results hold for it. |
| Region.DecideNamesBothTeams | src/utils/simulator.ts:64-71 | A game's result has one team of the matchup as winner and the other as loser, and carries the round being played. |
| Region.NextRoundPairsConsecutiveWinners | src/utils/simulator.ts:77-96 | Whenever the source does not read past the winners, all three pairing branches agree. Next-round matchup k pits the winner of game 2k against the winner of game 2k+1, tagged with the following round. |
| Region.RegionFrom | src/utils/simulator.ts:58-100 | A bracket starting with n matchups plays 2n − 1 games (none when n = 0). |
| Region.PairWinners | src/utils/simulator.ts:77-96 | The pairing step builds `NextRound` of the round's winners. |
| Region.PlayGames | src/utils/simulator.ts:63-74 | The game loop appends, for game i, the result decided by draws[first + i], tagged with the current round. It collects the winners in order. |
| Region.PlayRoundAndPair | src/utils/simulator.ts:58-99 | One pass of the round loop plays \|round\| games. It leaves a strictly smaller, well-sized next round. The log from this round is the pass's results followed by the log from the next round. |
| Region.PlayRounds | src/utils/simulator.ts:58-100 | The round loop yields exactly the log `RegionFrom` from the first round, using one draw per game. |
| Region.SimulateRegion | src/utils/simulator.ts:53-103 | `simulateRegion` returns `RegionLog`: the first round played out with `SimulateGame`, 2n − 1 results for n first-round matchups. |
| Region.RegionFromReadsOwnDraws | src/utils/simulator.ts:58-100 | A region reads no draw beyond its own games. Cutting the draws after its first 2n − 1 leaves the log unchanged. |
| Region.LogFollowsSchedule | src/utils/simulator.ts:58-100 | One draw per result, in log order: result k is matchup k of the schedule (the rounds in order), decided by draws[k]. |
| Region.RoundOutcomesDistinct | src/utils/simulator.ts:63-74 | In a round where no team appears twice, a game's loser won no game of that round, and different games have different winners. |
| Region.PairingKeepsDistinct | src/utils/simulator.ts:88-94 | Pairing pairwise different winners gives a round in which no team appears twice. |
| Region.AdvanceKeepsDistinct | src/utils/simulator.ts:63-96 | If no team appears twice in a round, none appears twice in the round after it. |
| Region.ChampionWonInRound | src/utils/simulator.ts:58-100 | The champion, the winner of the log's last game, won some game of the starting round. |
| Region.WinnerLosesNoGameOfRound | src/utils/simulator.ts:63-74 | In a round where no team appears twice, each game's winner loses no game of that round. |
| Region.ChampionNeverLoses | src/utils/simulator.ts:58-100 | When no team appears twice in the first round, the champion is the loser of no result in the log. |
| Region.RoundStaysInRegion | src/utils/simulator.ts:63-96 | If a round's teams all come from a region, so do that round's winners and losers and the teams of the next round. |
| Region.RegionFromStaysInRegion | src/utils/simulator.ts:58-100 | Every winner and loser of a region's log is a roster team of that region. |
| Region.ChampionFromRegion | src/utils/simulator.ts:58-102 | A region's champion is a roster team of that region. |
| Region.UnbeatenInRegion | src/utils/simulator.ts:58-100 | A team loses no game of a region's log when it is that region's champion or plays in another region. |
| Region.FirstRoundFrom | src/utils/simulator.ts:33-47 | Both teams of every first-round matchup are roster teams of the requested region. |
| Region.UnknownRegionIsEmpty | src/utils/simulator.ts:53-58 | An unknown region yields an empty log: the while loop never runs. |
| Region.CompleteFirstRoundDistinct | src/utils/simulator.ts:37-47 | In a region with all sixteen seeds, the first round has 8 matchups tagged round 1, and no team appears twice. |
| Region.EightTeamRoundsTags | src/utils/simulator.ts:56-99 | A bracket starting with eight matchups plays 15 games with round tags eight 1s, four 2s, two 3s and one 4. |
| Region.CompleteRegion | src/utils/simulator.ts:53-103 | For a region with all sixteen seeds, `simulateRegion` gives 15 results tagged 1×8, 2×4, 3×2, 4×1. Result k is the k-th scheduled matchup decided by draws[k]. The champion is a team of the region and never loses. |
| Bracket.Tournament | src/App.tsx:14-48 | A run is produced exactly when every region crowns a champion: its first round has 1 or 8 matchups. Otherwise the source throws. A run has four final-four teams and two semifinal results. Its champion is the championship winner and one of the final four. |
| Bracket.FinalRoundsFollowBracket | src/App.tsx:28-48 | The final four is [East, Midwest, South, West]. Semifinal 1 is East v Midwest and semifinal 2 is South v West, both round 5, each loser being the participant that did not win. The championship is the two semifinal winners, round 6, its loser the other finalist. The champion is the championship winner, one of the final four. |
| Bracket.FinalsChampionUnbeaten | src/App.tsx:28-48 | When the four entrants come from the four regions, the champion loses neither its semifinal nor the championship. |
| Bracket.PlayTournamentFinals | src/App.tsx:15-48 | The final four are the winners of the last entries of the region logs, in the order East, Midwest, South, West. Each semifinal is decided by the next draw after the regions'. The championship is decided by the draw after those, and the champion is its winner. |
| Bracket.PlayTournamentFinalFour | src/App.tsx:23-28 | Each final-four entrant is a roster team of the region it won. The four are different teams, and the champion loses no final game. |
| Bracket.CompleteBracket | src/App.tsx:15-48 | With four full brackets the tournament uses 63 draws. East, West, South and Midwest play on draws 0–14, 15–29, 30–44 and 45–59, each region 15 games. The champion is a roster team that loses no game of any region or of the final rounds. |
| Bracket.CompleteTournament | src/App.tsx:14-48 | For a roster whose four regions each have all sixteen seeds, `simulateTournament` always finishes and uses 63 draws. The region logs are `simulateRegion` on draws 0–14, 15–29, 30–44 and 45–59. The semifinals use draws 60 and 61 and the championship draw 62. The champion loses no game of the tournament. |

## Left out

- The React rendering and the state setters (`setResults` … `setChampion`, src/App.tsx:50-54 and the JSX after it) are not modelled. `Tournament` returns the five values the setters receive, as one `TournamentRun`.
- `Math.random()` is not modelled. Its values are the `draws` argument, so nothing is claimed about distributions or upset frequencies.
- Numbers are exact `real`s, not IEEE doubles. Rounding of `draw * (1 + d/32)` right at a probability boundary is not modelled.
- The roster module `./data/teams2024` is not part of this model. The roster is the `teams` argument.
- The upset table is keyed by the seed pair rather than by the text "stronger-weaker". For integer seeds the two keys determine each other. Seeds are `int`, so fractional seed numbers are not modelled.
- `===` on teams is value equality of `Team` records. The model does not distinguish two different objects with equal fields.
- Region.SimulateRegion: requires a first round of 0, 1 or 8 matchups (`Playable`). With 2–7 matchups the source pairs `undefined` winners into round 2 (src/utils/simulator.ts:80-94) and then throws when it reads a seed. That path is modelled only at the tournament level, where `Tournament` returns `None`.
- Region.PairWinners, Region.PlayRounds: these also require well-sized rounds, for the same reason.
- Seeding.FindSeed: the contract does not state that the first matching team is returned. The body does return it, as `Array.prototype.find` does.
- The region loop is proved for any game rule that picks one of the two sides. `SimulateRegion` and `Tournament` instantiate it with `SimulateGame`.
- Draws are a finite sequence, so `SimulateRegion` and `Tournament` require enough draws for all their games. The source's generator never runs out.
