/** First-round seeding of one region (generateFirstRound in src/utils/simulator.ts). */
module Seeding {
  import opened TournamentTypes

  /** The fixed first-round pairs, in the order the matchups are emitted. */
  const FirstRoundPairs: seq<(int, int)> :=
    [(1, 16), (8, 9), (5, 12), (4, 13), (6, 11), (3, 14), (7, 10), (2, 15)]

  /** The roster restricted to one region, in roster order. */
  function RegionTeams(teams: seq<Team>, region: string): (r: seq<Team>)
    ensures |r| <= |teams|
    ensures forall t :: t in r <==> t in teams && t.region == region
  {
    if teams == [] then []
    else (if teams[0].region == region then [teams[0]] else []) + RegionTeams(teams[1..], region)
  }

  /** Some team of `ts` has seed `seed`. */
  ghost predicate HasSeed(ts: seq<Team>, seed: int)
  {
    exists t :: t in ts && t.seed == seed
  }

  /** The first team of `ts` with seed `seed`, if there is one. */
  function FindSeed(ts: seq<Team>, seed: int): (r: Option<Team>)
    ensures r.Some? <==> HasSeed(ts, seed)
    ensures r.Some? ==> r.value in ts && r.value.seed == seed
  {
    if ts == [] then None
    else if ts[0].seed == seed then Some(ts[0])
    else FindSeed(ts[1..], seed)
  }

  /** The matchups made from `pairs`, in order, skipping a pair when either seed is missing. */
  function Pairings(regionTeams: seq<Team>, pairs: seq<(int, int)>): seq<Matchup>
  {
    if pairs == [] then []
    else
      var earlier := Pairings(regionTeams, pairs[..|pairs| - 1]);
      var seed1, seed2 := pairs[|pairs| - 1].0, pairs[|pairs| - 1].1;
      match (FindSeed(regionTeams, seed1), FindSeed(regionTeams, seed2))
      case (Some(team1), Some(team2)) => earlier + [Matchup(team1, team2, 1)]
      case _ => earlier
  }

  /** The first-round matchups of `region`. */
  function FirstRound(teams: seq<Team>, region: string): seq<Matchup>
  {
    Pairings(RegionTeams(teams, region), FirstRoundPairs)
  }

  /** generateFirstRound: one pass over the fixed pairs, appending a matchup for each pair
      whose two seeds the region has. */
  method GenerateFirstRound(teams: seq<Team>, region: string) returns (matchups: seq<Matchup>)
    ensures matchups == FirstRound(teams, region)
  {
    var regionTeams := RegionTeams(teams, region);
    matchups := [];
    for i := 0 to |FirstRoundPairs|
      invariant matchups == Pairings(regionTeams, FirstRoundPairs[..i])
    {
      var seed1, seed2 := FirstRoundPairs[i].0, FirstRoundPairs[i].1;
      var team1 := FindSeed(regionTeams, seed1);
      var team2 := FindSeed(regionTeams, seed2);
      if team1.Some? && team2.Some? {
        matchups := matchups + [Matchup(team1.value, team2.value, 1)];
      }
      assert FirstRoundPairs[..i + 1][..i] == FirstRoundPairs[..i];
    }
    assert FirstRoundPairs[..|FirstRoundPairs|] == FirstRoundPairs;
  }

  /** The seed pair each matchup stands for. */
  function Seeds(matchups: seq<Matchup>): (s: seq<(int, int)>)
    ensures |s| == |matchups|
  {
    seq(|matchups|, i requires 0 <= i < |matchups| => (matchups[i].team1.seed, matchups[i].team2.seed))
  }

  /** The pairs of `pairs` whose two seeds both occur in `regionTeams`, in order. */
  ghost function KeptPairs(regionTeams: seq<Team>, pairs: seq<(int, int)>): (r: seq<(int, int)>)
    ensures |r| <= |pairs|
  {
    if pairs == [] then []
    else
      var last := pairs[|pairs| - 1];
      KeptPairs(regionTeams, pairs[..|pairs| - 1])
        + (if HasSeed(regionTeams, last.0) && HasSeed(regionTeams, last.1) then [last] else [])
  }

  lemma {:induction false} KeptPairsMembership(regionTeams: seq<Team>, pairs: seq<(int, int)>, p: (int, int))
    ensures p in KeptPairs(regionTeams, pairs) <==> p in pairs && HasSeed(regionTeams, p.0) && HasSeed(regionTeams, p.1)
  {
    if pairs != [] {
      var init := pairs[..|pairs| - 1];
      KeptPairsMembership(regionTeams, init, p);
      assert pairs == init + [pairs[|pairs| - 1]];
    }
  }

  lemma {:induction false} KeptPairsAllPresent(regionTeams: seq<Team>, pairs: seq<(int, int)>)
    requires forall p :: p in pairs ==> HasSeed(regionTeams, p.0) && HasSeed(regionTeams, p.1)
    ensures KeptPairs(regionTeams, pairs) == pairs
  {
    if pairs != [] {
      var init := pairs[..|pairs| - 1];
      assert pairs == init + [pairs[|pairs| - 1]];
      KeptPairsAllPresent(regionTeams, init);
    }
  }

  /** The seeds of the matchups built from `pairs` are the pairs kept, in order; each
      matchup is tagged round 1 and takes both teams from `regionTeams`. */
  lemma {:induction false} PairingsKeepPresentPairs(regionTeams: seq<Team>, pairs: seq<(int, int)>)
    ensures Seeds(Pairings(regionTeams, pairs)) == KeptPairs(regionTeams, pairs)
    ensures forall m :: m in Pairings(regionTeams, pairs) ==>
      m.round == 1 && m.team1 in regionTeams && m.team2 in regionTeams
  {
    if pairs != [] {
      var init := pairs[..|pairs| - 1];
      PairingsKeepPresentPairs(regionTeams, init);
      var earlier := Pairings(regionTeams, init);
      var last := pairs[|pairs| - 1];
      var t1, t2 := FindSeed(regionTeams, last.0), FindSeed(regionTeams, last.1);
      if t1.Some? && t2.Some? {
        var m := Matchup(t1.value, t2.value, 1);
        assert Pairings(regionTeams, pairs) == earlier + [m];
        assert Seeds(earlier + [m]) == Seeds(earlier) + [last];
      }
    }
  }

  /** The first round follows the fixed order 1v16, 8v9, 5v12, 4v13, 6v11, 3v14, 7v10, 2v15,
      keeping exactly the pairs whose two seeds the region has; every matchup is a round-1
      meeting of two teams of that region, a seed s <= 8 against 17 - s. */
  lemma FirstRoundFollowsFixedOrder(teams: seq<Team>, region: string)
    ensures Seeds(FirstRound(teams, region)) == KeptPairs(RegionTeams(teams, region), FirstRoundPairs)
    ensures |FirstRound(teams, region)| <= 8
    ensures forall m :: m in FirstRound(teams, region) ==>
      && m.round == 1
      && m.team1 in teams && m.team1.region == region
      && m.team2 in teams && m.team2.region == region
      && 1 <= m.team1.seed <= 8 && m.team1.seed + m.team2.seed == 17
  {
    var rt := RegionTeams(teams, region);
    var r := FirstRound(teams, region);
    PairingsKeepPresentPairs(rt, FirstRoundPairs);
    forall m | m in r
      ensures 1 <= m.team1.seed <= 8 && m.team1.seed + m.team2.seed == 17
    {
      var i :| 0 <= i < |r| && r[i] == m;
      var p := Seeds(r)[i];
      KeptPairsMembership(rt, FirstRoundPairs, p);
      FixedPairShape(p);
    }
  }

  /** Pair k of the fixed order is played exactly when both of its seeds are in the region. */
  lemma FirstRoundOmitsExactlyMissing(teams: seq<Team>, region: string, k: int)
    requires 0 <= k < |FirstRoundPairs|
    ensures FirstRoundPairs[k] in Seeds(FirstRound(teams, region)) <==>
      HasSeed(RegionTeams(teams, region), FirstRoundPairs[k].0) && HasSeed(RegionTeams(teams, region), FirstRoundPairs[k].1)
  {
    FirstRoundFollowsFixedOrder(teams, region);
    KeptPairsMembership(RegionTeams(teams, region), FirstRoundPairs, FirstRoundPairs[k]);
  }

  /** All sixteen seeds 1..16 are present in the region. */
  ghost predicate Complete(teams: seq<Team>, region: string)
  {
    forall s :: 1 <= s <= 16 ==> HasSeed(RegionTeams(teams, region), s)
  }

  /** A complete region plays all eight fixed pairs, in the fixed order. */
  lemma CompleteFirstRound(teams: seq<Team>, region: string)
    requires Complete(teams, region)
    ensures Seeds(FirstRound(teams, region)) == FirstRoundPairs
    ensures |FirstRound(teams, region)| == 8
  {
    var rt := RegionTeams(teams, region);
    forall p | p in FirstRoundPairs
      ensures HasSeed(rt, p.0) && HasSeed(rt, p.1)
    {
    }
    KeptPairsAllPresent(rt, FirstRoundPairs);
    FirstRoundFollowsFixedOrder(teams, region);
  }

  /** Only when every pair is kept are as many pairs kept as there are pairs. */
  lemma {:induction false} KeptPairsFull(regionTeams: seq<Team>, pairs: seq<(int, int)>)
    requires |KeptPairs(regionTeams, pairs)| == |pairs|
    ensures forall p :: p in pairs ==> HasSeed(regionTeams, p.0) && HasSeed(regionTeams, p.1)
  {
    if pairs != [] {
      var init := pairs[..|pairs| - 1];
      KeptPairsFull(regionTeams, init);
      assert pairs == init + [pairs[|pairs| - 1]];
    }
  }

  /** Every seed 1..16 belongs to one of the fixed pairs. */
  lemma SeedInFixedPair(seed: int)
    requires 1 <= seed <= 16
    ensures seed <= 8 ==> (seed, 17 - seed) in FirstRoundPairs
    ensures seed > 8 ==> (17 - seed, seed) in FirstRoundPairs
  {
  }

  /** A region plays all eight first-round matchups exactly when it has all sixteen seeds. */
  lemma EightMatchupsIffComplete(teams: seq<Team>, region: string)
    ensures |FirstRound(teams, region)| == 8 <==> Complete(teams, region)
  {
    if Complete(teams, region) {
      CompleteFirstRound(teams, region);
    } else if |FirstRound(teams, region)| == 8 {
      var rt := RegionTeams(teams, region);
      FirstRoundFollowsFixedOrder(teams, region);
      KeptPairsFull(rt, FirstRoundPairs);
      forall seed | 1 <= seed <= 16
        ensures HasSeed(rt, seed)
      {
        SeedInFixedPair(seed);
      }
      assert false;
    }
  }

  /** A region no team belongs to has no first-round matchups. */
  lemma UnknownRegionFirstRound(teams: seq<Team>, region: string)
    requires forall t :: t in teams ==> t.region != region
    ensures FirstRound(teams, region) == []
  {
    var rt := RegionTeams(teams, region);
    FirstRoundFollowsFixedOrder(teams, region);
    var kept := KeptPairs(rt, FirstRoundPairs);
    if kept != [] {
      KeptPairsMembership(rt, FirstRoundPairs, kept[0]);
      assert false;
    }
  }

  /** Each fixed pair puts a seed s <= 8 against 17 - s. */
  lemma FixedPairShape(p: (int, int))
    requires p in FirstRoundPairs
    ensures 1 <= p.0 <= 8 && p.0 + p.1 == 17
  {
  }

  /** The sixteen seeds of the fixed pairs are all different. */
  lemma FirstRoundPairsDistinct()
    ensures forall p :: p in FirstRoundPairs ==> 1 <= p.0 <= 8 && p.0 + p.1 == 17
    ensures forall i :: 0 <= i < |FirstRoundPairs| ==>
      1 <= FirstRoundPairs[i].0 <= 8 && FirstRoundPairs[i].0 + FirstRoundPairs[i].1 == 17
    ensures forall i, j :: 0 <= i < j < |FirstRoundPairs| ==> FirstRoundPairs[i].0 != FirstRoundPairs[j].0
  {
  }
}
