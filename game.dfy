/** The upset model and the single-game decision of src/utils/simulator.ts.
    The random number the source draws per game is an explicit parameter `draw`. */
module Game {
  import opened TournamentTypes

  /** The upset table: the probability that the weaker seed wins, looked up by
      (stronger seed, weaker seed); None for a pairing the table has no entry for.
      The source keys it by the text "stronger-weaker"; for integer seeds that text
      determines the pair, so a pair-keyed lookup finds the same entry. */
  function UpsetProbabilities(higherSeed: int, lowerSeed: int): Option<real>
  {
    match (higherSeed, lowerSeed)
    case (1, 16) => Some(0.01)
    case (2, 15) => Some(0.06)
    case (3, 14) => Some(0.13)
    case (4, 13) => Some(0.21)
    case (5, 12) => Some(0.35)
    case (6, 11) => Some(0.37)
    case (7, 10) => Some(0.40)
    case (8, 9) => Some(0.50)
    case _ => None
  }

  /** Probability used for every pairing that is not in the table. */
  const DefaultUpsetProbability: real := 0.3

  /** Upset probability of the pairing (higherSeed, lowerSeed). As with the source's `||`,
      a missing entry, or one equal to zero, falls back to the default. */
  function UpsetProbability(higherSeed: int, lowerSeed: int): (p: real)
    ensures 0.0 < p <= 0.5
  {
    match UpsetProbabilities(higherSeed, lowerSeed)
    case Some(p) => if p != 0.0 then p else DefaultUpsetProbability
    case None => DefaultUpsetProbability
  }

  function Abs(x: int): nat
  {
    if x < 0 then -x else x
  }

  /** The factor `1 + |seed1 - seed2| / 32` by which a game's draw is scaled. */
  function SeedGapFactor(seed1: int, seed2: int): (f: real)
    ensures f >= 1.0
    ensures f == 1.0 <==> seed1 == seed2
  {
    1.0 + (Abs(seed1 - seed2) as real) / 32.0
  }

  /** Decides one game with the draw `draw` (the source's `Math.random()`, in [0, 1)).
      The side with the numerically lower seed is the favourite (team2 when the seeds tie);
      the other side wins only when the scaled draw is below the upset probability. */
  function SimulateGame(team1: Team, team2: Team, draw: real): (w: Team)
    ensures w == team1 || w == team2
    ensures team1.seed < team2.seed ==>
      (w == team2 <==> draw * SeedGapFactor(team1.seed, team2.seed) < UpsetProbability(team1.seed, team2.seed))
    ensures team2.seed < team1.seed ==>
      (w == team1 <==> draw * SeedGapFactor(team1.seed, team2.seed) < UpsetProbability(team2.seed, team1.seed))
    ensures team1.seed == team2.seed && team1 != team2 ==> (w == team1 <==> draw < DefaultUpsetProbability)
  {
    var higherSeed := if team1.seed < team2.seed then team1 else team2;
    var lowerSeed := if team1.seed < team2.seed then team2 else team1;
    var upsetProbability := UpsetProbability(higherSeed.seed, lowerSeed.seed);
    var randomFactor := draw * SeedGapFactor(team1.seed, team2.seed);
    if randomFactor < upsetProbability then lowerSeed else higherSeed
  }

  /** The table holds exactly the eight first-round classes s vs 17 - s; every other
      ordered pair, later-round pairings such as (1, 8) and reversed pairs included,
      gets the default. */
  lemma UpsetTableLookup(higherSeed: int, lowerSeed: int)
    ensures UpsetProbabilities(higherSeed, lowerSeed).Some? <==> 1 <= higherSeed <= 8 && lowerSeed == 17 - higherSeed
    ensures UpsetProbabilities(higherSeed, lowerSeed).Some? ==>
      UpsetProbability(higherSeed, lowerSeed) == UpsetProbabilities(higherSeed, lowerSeed).value
    ensures UpsetProbabilities(higherSeed, lowerSeed).None? ==>
      UpsetProbability(higherSeed, lowerSeed) == DefaultUpsetProbability
  {
  }

  /** Among first-round pairings, the closer the two seeds, the likelier the upset. */
  lemma FirstRoundUpsetsGrowWithSeed(s: int, t: int)
    requires 1 <= s < t <= 8
    ensures UpsetProbability(s, 17 - s) < UpsetProbability(t, 17 - t)
  {
  }

  /** When the seeds differ, the order in which the two teams are passed does not matter. */
  lemma SimulateGameIgnoresOrder(team1: Team, team2: Team, draw: real)
    requires team1.seed != team2.seed
    ensures SimulateGame(team1, team2, draw) == SimulateGame(team2, team1, draw)
  {
  }

  /** The draw below which the weaker seed wins, once the scaling is undone. */
  function UpsetThreshold(higherSeed: int, lowerSeed: int): real
  {
    UpsetProbability(higherSeed, lowerSeed) / SeedGapFactor(higherSeed, lowerSeed)
  }

  lemma ScaledBelow(draw: real, factor: real, bound: real)
    requires factor > 0.0
    ensures draw * factor < bound <==> draw < bound / factor
  {
    assert bound / factor * factor == bound;
    if draw * factor < bound {
      assert draw * factor < bound / factor * factor;
    } else {
      assert draw * factor >= bound / factor * factor;
    }
  }

  lemma DividedBelow(bound: real, factor: real)
    requires bound > 0.0 && factor > 1.0
    ensures 0.0 < bound / factor < bound
  {
    assert bound / factor * factor == bound;
  }

  /** The weaker seed wins exactly when the draw is below the threshold, and the threshold
      lies strictly below the table's probability: scaling only makes upsets rarer. */
  lemma UpsetBelowThreshold(favourite: Team, underdog: Team, draw: real)
    requires favourite.seed < underdog.seed
    ensures SimulateGame(favourite, underdog, draw) == underdog <==> draw < UpsetThreshold(favourite.seed, underdog.seed)
    ensures 0.0 < UpsetThreshold(favourite.seed, underdog.seed) < UpsetProbability(favourite.seed, underdog.seed)
  {
    var p := UpsetProbability(favourite.seed, underdog.seed);
    var f := SeedGapFactor(favourite.seed, underdog.seed);
    ScaledBelow(draw, f, p);
    DividedBelow(p, f);
  }

  /** A draw of at least 0.5 lies above every upset probability: the favourite wins. */
  lemma HighDrawFavoursStronger(team1: Team, team2: Team, draw: real)
    requires draw >= 0.5
    ensures SimulateGame(team1, team2, draw) == if team1.seed < team2.seed then team1 else team2
  {
    var f := SeedGapFactor(team1.seed, team2.seed);
    assert draw * f >= 0.5 by {
      assert draw * f >= draw * 1.0;
    }
  }
}
