/**
 * The simple AI (js/ai.js). Its reinforcement move adds one army to the
 * owned territory with the longest neighbour list and opens the attack
 * phase; its attack move repeats "fight the best-scoring legal pair" up to
 * `maxAttacksPerTurn` times, stopping early at a winner and otherwise
 * passing the turn. The `setTimeout` chain of the source is the loop of
 * MakeAttackMove, and the rolls of the successive combats are a parameter.
 */
module SimpleAI {
  import opened Board
  import opened Rules
  import opened Strategy

  // ---------------------------------------------------------------------------
  // makeReinforcementMove

  /** The neighbour-list lengths of the candidates, in order. */
  function NeighborCounts(ts: seq<Territory>, cands: seq<int>): (r: seq<int>)
    requires InRange(cands, |ts|)
    ensures |r| == |cands| && forall m :: 0 <= m < |cands| ==> r[m] == |ts[cands[m]].neighbors|
  {
    seq(|cands|, m requires 0 <= m < |cands| => |ts[cands[m]].neighbors|)
  }

  /** The owned territory the reinforcement goes to: the first one with the longest neighbour list. */
  function MostConnected(ts: seq<Territory>, cur: PlayerId): (r: Option<int>)
    requires RefsValid(ts)
    ensures r.None? <==> forall p :: 0 <= p < |ts| ==> ts[p].owner != Some(cur)
    ensures r.Some? ==> 0 <= r.value < |ts| && ts[r.value].owner == Some(cur)
    ensures r.Some? ==> forall p :: 0 <= p < |ts| && ts[p].owner == Some(cur) ==>
      |ts[p].neighbors| <= |ts[r.value].neighbors|
    ensures r.Some? ==> forall p :: 0 <= p < r.value && ts[p].owner == Some(cur) ==>
      |ts[p].neighbors| < |ts[r.value].neighbors|
  {
    var owned := Candidates(ts, cur, OwnedBy, |ts|);
    match FirstMax(NeighborCounts(ts, owned))
    case None =>
      OwnedCandidates(ts, cur);
      None
    case Some(k) =>
      OwnedCandidates(ts, cur);
      FirstMaxOwned(ts, cur, owned, k);
      Some(owned[k])
  }

  /** The owned-territory filter yields exactly the owned positions, in increasing order. */
  lemma OwnedCandidates(ts: seq<Territory>, cur: PlayerId)
    requires RefsValid(ts)
    ensures var owned := Candidates(ts, cur, OwnedBy, |ts|);
      InRange(owned, |ts|) &&
      (forall k :: 0 <= k < |owned| ==> ts[owned[k]].owner == Some(cur)) &&
      (forall p :: 0 <= p < |ts| && ts[p].owner == Some(cur) ==> p in owned) &&
      (forall a, b :: 0 <= a < b < |owned| ==> owned[a] < owned[b])
  {
    var owned := Candidates(ts, cur, OwnedBy, |ts|);
    assert forall p :: 0 <= p < |ts| && ts[p].owner == Some(cur) ==> Keeps(ts, cur, OwnedBy, p);
  }

  /** The first maximal neighbour count among increasing owned positions is the first longest list on the board. */
  lemma FirstMaxOwned(ts: seq<Territory>, cur: PlayerId, owned: seq<int>, k: nat)
    requires InRange(owned, |ts|) && k < |owned|
    requires forall m :: 0 <= m < |owned| ==> ts[owned[m]].owner == Some(cur)
    requires forall p :: 0 <= p < |ts| && ts[p].owner == Some(cur) ==> p in owned
    requires forall a, b :: 0 <= a < b < |owned| ==> owned[a] < owned[b]
    requires FirstMax(NeighborCounts(ts, owned)) == Some(k)
    ensures forall p :: 0 <= p < |ts| && ts[p].owner == Some(cur) ==> |ts[p].neighbors| <= |ts[owned[k]].neighbors|
    ensures forall p :: 0 <= p < owned[k] && ts[p].owner == Some(cur) ==> |ts[p].neighbors| < |ts[owned[k]].neighbors|
  {
    var scores := NeighborCounts(ts, owned);
    forall p | 0 <= p < |ts| && ts[p].owner == Some(cur)
      ensures |ts[p].neighbors| <= |ts[owned[k]].neighbors|
      ensures p < owned[k] ==> |ts[p].neighbors| < |ts[owned[k]].neighbors|
    {
      var m :| 0 <= m < |owned| && owned[m] == p;
      assert scores[m] <= scores[k];
      if p < owned[k] {
        assert m < k;
        assert scores[m] < scores[k];
      }
    }
  }

  /** The board after makeReinforcementMove: one more army on the most connected owned territory. */
  function ReinforcedByOne(ts: seq<Territory>, cur: PlayerId): (r: seq<Territory>)
    requires WellFormed(ts)
    ensures SameBoard(ts, r)
    ensures (forall p :: 0 <= p < |ts| ==> ts[p].owner != Some(cur)) ==> r == ts
  {
    AddArmiesAt(ts, MostConnected(ts, cur), 1)
  }

  /**
   * The reinforcement adds exactly one army, to the first owned territory
   * with the longest neighbour list, and changes nothing else.
   */
  lemma ReinforceByOneEffect(ts: seq<Territory>, cur: PlayerId)
    requires WellFormed(ts) && ArmyFloor(ts) && CountOwned(ts, cur) > 0
    ensures var r := ReinforcedByOne(ts, cur);
      |r| == |ts| && TotalArmies(r) == TotalArmies(ts) + 1 &&
      exists p :: 0 <= p < |ts| && ts[p].owner == Some(cur) &&
        (forall q :: 0 <= q < |ts| && ts[q].owner == Some(cur) ==> |ts[q].neighbors| <= |ts[p].neighbors|) &&
        (forall q :: 0 <= q < p && ts[q].owner == Some(cur) ==> |ts[q].neighbors| < |ts[p].neighbors|) &&
        r[p] == ts[p].(armies := ts[p].armies + 1) &&
        forall q :: 0 <= q < |ts| && q != p ==> r[q] == ts[q]
  {
    AddArmiesOnly(ts, MostConnected(ts, cur).value, 1);
  }

  // ---------------------------------------------------------------------------
  // The best attack of makeAttackMove

  /** Every pair is a pair of board positions. */
  ghost predicate PairsIn(pairs: seq<(int, int)>, n: nat)
  {
    forall k :: 0 <= k < |pairs| ==> 0 <= pairs[k].0 < n && 0 <= pairs[k].1 < n
  }

  /** The pairs from one source, in the order of its enemy neighbours. */
  function PairsOf(ts: seq<Territory>, cur: PlayerId, src: int): (r: seq<(int, int)>)
    requires RefsValid(ts) && 0 <= src < |ts|
    ensures var targets := EnemiesIn(ts, cur, ts[src].neighbors);
      |r| == |targets| && forall k :: 0 <= k < |r| ==> r[k] == (src, targets[k])
  {
    var targets := EnemiesIn(ts, cur, ts[src].neighbors);
    seq(|targets|, k requires 0 <= k < |targets| => (src, targets[k]))
  }

  /** `p` pairs a listed source with one of its enemy neighbours. */
  ghost predicate Visits(ts: seq<Territory>, cur: PlayerId, sources: seq<int>, p: (int, int))
    requires RefsValid(ts) && InRange(sources, |ts|)
  {
    p.0 in sources && 0 <= p.0 < |ts| && p.1 in EnemiesIn(ts, cur, ts[p.0].neighbors)
  }

  /** The pairs the nested loops visit for the given sources, in visiting order. */
  function PairsFrom(ts: seq<Territory>, cur: PlayerId, sources: seq<int>): (r: seq<(int, int)>)
    requires RefsValid(ts) && InRange(sources, |ts|)
    ensures PairsIn(r, |ts|)
    ensures forall p :: p in r <==> Visits(ts, cur, sources, p)
  {
    if |sources| == 0 then []
    else
      var last := sources[|sources| - 1];
      var init := sources[..|sources| - 1];
      var row := PairsOf(ts, cur, last);
      var r := PairsFrom(ts, cur, init) + row;
      assert forall s :: s in sources <==> s in init || s == last;
      assert forall p: (int, int) :: p in row <==> p.0 == last && p.1 in EnemiesIn(ts, cur, ts[last].neighbors) by {
        forall p: (int, int) | p.0 == last && p.1 in EnemiesIn(ts, cur, ts[last].neighbors)
          ensures p in row
        {
          var m :| 0 <= m < |row| && EnemiesIn(ts, cur, ts[last].neighbors)[m] == p.1;
          assert row[m] == p;
        }
      }
      r
  }

  /** All candidate pairs of makeAttackMove: sources with more than one army, then their enemy neighbours. */
  function AttackPairs(ts: seq<Territory>, cur: PlayerId): (r: seq<(int, int)>)
    requires WellFormed(ts)
    ensures PairsIn(r, |ts|)
    ensures forall k :: 0 <= k < |r| ==> LegalPair(ts, cur, r[k].0, r[k].1)
    ensures forall i, j :: LegalPair(ts, cur, i, j) ==> (i, j) in r
  {
    var sources := Candidates(ts, cur, SourceOf, |ts|);
    var r := PairsFrom(ts, cur, sources);
    forall k | 0 <= k < |r|
      ensures LegalPair(ts, cur, r[k].0, r[k].1)
    {
      var (i, j) := r[k];
      assert r[k] in r && Visits(ts, cur, sources, (i, j));
      var m :| 0 <= m < |sources| && sources[m] == i;
      assert Keeps(ts, cur, SourceOf, sources[m]);
      var targets := EnemiesIn(ts, cur, ts[i].neighbors);
      var n :| 0 <= n < |targets| && targets[n] == j;
      assert ts[targets[n]].owner != Some(cur) && targets[n] in ts[i].neighbors;
      assert ts[j].id == j;
    }
    forall i, j | LegalPair(ts, cur, i, j)
      ensures (i, j) in r
    {
      assert Keeps(ts, cur, SourceOf, i) && i in sources;
      var k :| 0 <= k < |ts[i].neighbors| && ts[i].neighbors[k] == ts[j].id;
      assert ts[j].id == j;
      assert j in EnemiesIn(ts, cur, ts[i].neighbors);
    }
    r
  }

  /** `(source.armies - target.armies) + target.neighbors.length`. */
  function PairScore(ts: seq<Territory>, pair: (int, int)): int
    requires 0 <= pair.0 < |ts| && 0 <= pair.1 < |ts|
  {
    (ts[pair.0].armies - ts[pair.1].armies) + |ts[pair.1].neighbors|
  }

  function PairScores(ts: seq<Territory>, pairs: seq<(int, int)>): (r: seq<int>)
    requires PairsIn(pairs, |ts|)
    ensures |r| == |pairs| && forall k :: 0 <= k < |pairs| ==> r[k] == PairScore(ts, pairs[k])
  {
    seq(|pairs|, k requires 0 <= k < |pairs| => PairScore(ts, pairs[k]))
  }

  /** The pair at the first maximal score among `pairs`. */
  function BestOf(ts: seq<Territory>, pairs: seq<(int, int)>): (r: Option<(int, int)>)
    requires PairsIn(pairs, |ts|)
    ensures r.None? <==> |pairs| == 0
    ensures r.Some? ==> exists k :: IsFirstMax(PairScores(ts, pairs), k) && r.value == pairs[k]
  {
    match FirstMax(PairScores(ts, pairs))
    case None => None
    case Some(k) => assert IsFirstMax(PairScores(ts, pairs), k); Some(pairs[k])
  }

  /** One iteration of the inner loop: a later pair replaces the best only with a strictly higher score. */
  lemma BestOfSnoc(ts: seq<Territory>, pairs: seq<(int, int)>, p: (int, int))
    requires PairsIn(pairs, |ts|) && 0 <= p.0 < |ts| && 0 <= p.1 < |ts|
    ensures PairsIn(pairs + [p], |ts|)
    ensures BestOf(ts, pairs + [p]) ==
      (var best := BestOf(ts, pairs);
       if best.None? || PairScore(ts, p) > PairScore(ts, best.value) then Some(p) else best)
  {
    assert PairScores(ts, pairs + [p]) == PairScores(ts, pairs) + [PairScore(ts, p)];
    FirstMaxSnoc(PairScores(ts, pairs), PairScore(ts, p));
  }

  lemma AppendSnoc<T>(a: seq<T>, b: seq<T>, x: T)
    ensures (a + b) + [x] == a + (b + [x])
  {
  }

  lemma PrefixSnoc<T>(s: seq<T>, t: nat)
    requires t < |s|
    ensures s[..t + 1] == s[..t] + [s[t]]
  {
  }

  /** The loops visit the pairs of one more source after those of the earlier ones. */
  lemma PairsFromSnoc(ts: seq<Territory>, cur: PlayerId, sources: seq<int>, s: nat)
    requires RefsValid(ts) && InRange(sources, |ts|) && s < |sources|
    ensures PairsFrom(ts, cur, sources[..s + 1]) == PairsFrom(ts, cur, sources[..s]) + PairsOf(ts, cur, sources[s])
  {
    assert sources[..s + 1][..s] == sources[..s];
  }

  /** The pair makeAttackMove fights with, if any. */
  function BestAttack(ts: seq<Territory>, cur: PlayerId): (r: Option<(int, int)>)
    requires WellFormed(ts)
    ensures r.Some? ==> LegalPair(ts, cur, r.value.0, r.value.1)
    ensures r.None? <==> forall i, j :: !LegalPair(ts, cur, i, j)
  {
    var pairs := AttackPairs(ts, cur);
    var r := BestOf(ts, pairs);
    assert r.None? ==> forall i, j :: !LegalPair(ts, cur, i, j);
    assert r.Some? ==> pairs[0] in pairs;
    r
  }

  /** The chosen pair is one of `pairs` and no pair of `pairs` scores higher. */
  lemma BestOfIsMax(ts: seq<Territory>, pairs: seq<(int, int)>)
    requires PairsIn(pairs, |ts|)
    ensures var best := BestOf(ts, pairs);
      best.Some? ==>
        best.value in pairs &&
        forall q :: q in pairs ==> PairScore(ts, q) <= PairScore(ts, best.value)
  {
    var best := BestOf(ts, pairs);
    if best.Some? {
      var k :| IsFirstMax(PairScores(ts, pairs), k) && best.value == pairs[k];
      forall q | q in pairs
        ensures PairScore(ts, q) <= PairScore(ts, best.value)
      {
        var m :| 0 <= m < |pairs| && pairs[m] == q;
        assert PairScores(ts, pairs)[m] <= PairScores(ts, pairs)[k];
      }
    }
  }

  /**
   * The chosen pair passes canAttack and scores at least as much as every
   * legal pair; there is no pair exactly when no legal attack exists.
   */
  lemma BestAttackIsBest(ts: seq<Territory>, cur: PlayerId)
    requires WellFormed(ts)
    ensures BestAttack(ts, cur).None? <==> forall i, j :: !LegalPair(ts, cur, i, j)
    ensures var best := BestAttack(ts, cur);
      best.Some? ==>
        LegalPair(ts, cur, best.value.0, best.value.1) &&
        Legal(ts, cur, ts[best.value.0].id, ts[best.value.1].id) &&
        forall i, j :: LegalPair(ts, cur, i, j) ==> PairScore(ts, (i, j)) <= PairScore(ts, best.value)
  {
    var pairs := AttackPairs(ts, cur);
    hide AttackPairs, PairsFrom;
    BestOfIsMax(ts, pairs);
    var best := BestAttack(ts, cur);
    if best.Some? {
      IdsAreIndicesUnique(ts);
    }
  }

  // ---------------------------------------------------------------------------
  // The attack sequence of makeAttackMove

  /** Every roll pair is a pair of die faces. */
  ghost predicate ValidRolls(rolls: seq<Dice>)
  {
    forall k :: 0 <= k < |rolls| ==> ValidDice(rolls[k])
  }

  lemma ValidRollsTail(rolls: seq<Dice>)
    requires |rolls| > 0 && ValidRolls(rolls)
    ensures ValidRolls(rolls[1..])
  {
    assert forall k :: 0 <= k < |rolls| - 1 ==> rolls[1..][k] == rolls[k + 1];
  }

  /** The board after one combat on the best pair; the pair is legal, so the army floor holds on. */
  function FightBest(ts: seq<Territory>, cur: PlayerId, dice: Dice): (r: seq<Territory>)
    requires WellFormed(ts) && BestAttack(ts, cur).Some?
    ensures SameBoard(ts, r) && WellFormed(r)
    ensures ArmyFloor(ts) && ValidDice(dice) ==> ArmyFloor(r)
  {
    var (i, j) := BestAttack(ts, cur).value;
    var r := Combat(ts, ts[i].id, ts[j].id, dice).0;
    SameBoardWellFormed(ts, r);
    BestPairKeepsArmyFloor(ts, cur, dice);
    r
  }

  /** The best pair is legal, so its combat keeps the army floor. */
  lemma BestPairKeepsArmyFloor(ts: seq<Territory>, cur: PlayerId, dice: Dice)
    requires WellFormed(ts) && BestAttack(ts, cur).Some?
    ensures var (i, j) := BestAttack(ts, cur).value;
      ArmyFloor(ts) && ValidDice(dice) ==> ArmyFloor(Combat(ts, ts[i].id, ts[j].id, dice).0)
  {
    var (i, j) := BestAttack(ts, cur).value;
    if ArmyFloor(ts) && ValidDice(dice) {
      BestAttackIsBest(ts, cur);
      CombatKeepsArmyFloor(ts, cur, ts[i].id, ts[j].id, dice);
    }
  }

  /** The end of an attack sequence: the board, the combats fought, and whether a winner stopped it. */
  datatype Run = Run(board: seq<Territory>, attacks: nat, won: bool)

  /**
   * The attack sequence with one roll pair per remaining attack: fight the
   * best pair, stop at a winner, and stop without a winner when no pair is
   * left or the rolls (the attack budget) run out.
   */
  function AttackRun(ts: seq<Territory>, cur: PlayerId, ps: seq<Player>, rolls: seq<Dice>): (r: Run)
    requires WellFormed(ts)
    ensures SameBoard(ts, r.board) && r.attacks <= |rolls|
    decreases |rolls|
  {
    if |rolls| == 0 then Run(ts, 0, false)
    else
      match BestAttack(ts, cur)
      case None => Run(ts, 0, false)
      case Some(_) =>
        var b := FightBest(ts, cur, rolls[0]);
        if Winner(b, ps).Some? then Run(b, 1, true)
        else
          var r := AttackRun(b, cur, ps, rolls[1..]);
          Run(r.board, r.attacks + 1, r.won)
  }

  /** A run that follows `n` earlier combats. */
  function Shifted(r: Run, n: nat): Run
  {
    r.(attacks := r.attacks + n)
  }

  /** One step of the sequence: no pair or no roll ends it; otherwise fight, then stop at a winner or go on. */
  lemma AttackRunStep(ts: seq<Territory>, cur: PlayerId, ps: seq<Player>, rolls: seq<Dice>)
    requires WellFormed(ts)
    ensures |rolls| == 0 || BestAttack(ts, cur).None? ==> AttackRun(ts, cur, ps, rolls) == Run(ts, 0, false)
    ensures |rolls| > 0 && BestAttack(ts, cur).Some? ==>
      var b := FightBest(ts, cur, rolls[0]);
      AttackRun(ts, cur, ps, rolls) ==
        if Winner(b, ps).Some? then Run(b, 1, true) else Shifted(AttackRun(b, cur, ps, rolls[1..]), 1)
  {
  }

  /** A run that stops here, after `attacks` combats, without a winner. */
  lemma AttackRunEnds(ts: seq<Territory>, cur: PlayerId, ps: seq<Player>, rolls: seq<Dice>, attacks: nat, total: Run)
    requires WellFormed(ts) && attacks <= |rolls|
    requires total == Shifted(AttackRun(ts, cur, ps, rolls[attacks..]), attacks)
    requires attacks == |rolls| || BestAttack(ts, cur).None?
    ensures total == Run(ts, attacks, false)
  {
    AttackRunStep(ts, cur, ps, rolls[attacks..]);
  }

  /** A run that goes on after one more combat on the best pair, with the next roll pair. */
  lemma AttackRunAdvances(ts: seq<Territory>, cur: PlayerId, ps: seq<Player>, rolls: seq<Dice>, attacks: nat, total: Run)
    requires WellFormed(ts) && attacks < |rolls| && BestAttack(ts, cur).Some?
    requires total == Shifted(AttackRun(ts, cur, ps, rolls[attacks..]), attacks)
    ensures var b := FightBest(ts, cur, rolls[attacks]);
      if Winner(b, ps).Some? then total == Run(b, attacks + 1, true)
      else total == Shifted(AttackRun(b, cur, ps, rolls[attacks + 1..]), attacks + 1)
  {
    var rest := rolls[attacks..];
    AttackRunStep(ts, cur, ps, rest);
    assert rest[0] == rolls[attacks] && rest[1..] == rolls[attacks + 1..];
  }

  /**
   * A run stops with a winner only after a combat that produced one, and
   * stops without a winner before spending its budget only when no legal
   * pair is left.
   */
  lemma {:induction false} AttackRunStops(ts: seq<Territory>, cur: PlayerId, ps: seq<Player>, rolls: seq<Dice>)
    requires WellFormed(ts)
    ensures var r := AttackRun(ts, cur, ps, rolls);
      WellFormed(r.board) &&
      (r.won ==> r.attacks >= 1 && Winner(r.board, ps).Some?) &&
      (!r.won && r.attacks < |rolls| ==> BestAttack(r.board, cur).None?)
    decreases |rolls|
  {
    AttackRunStep(ts, cur, ps, rolls);
    if |rolls| > 0 && BestAttack(ts, cur).Some? {
      var b := FightBest(ts, cur, rolls[0]);
      if Winner(b, ps).None? {
        AttackRunStops(b, cur, ps, rolls[1..]);
      }
    }
  }

  /** A run with legal rolls keeps every owned territory at one army or more. */
  lemma {:induction false} AttackRunKeepsArmyFloor(ts: seq<Territory>, cur: PlayerId, ps: seq<Player>, rolls: seq<Dice>)
    requires WellFormed(ts) && ArmyFloor(ts) && ValidRolls(rolls)
    ensures ArmyFloor(AttackRun(ts, cur, ps, rolls).board)
    decreases |rolls|
  {
    AttackRunStep(ts, cur, ps, rolls);
    if |rolls| > 0 && BestAttack(ts, cur).Some? {
      assert ValidDice(rolls[0]);
      var b := FightBest(ts, cur, rolls[0]);
      assert ArmyFloor(b);
      if Winner(b, ps).None? {
        ValidRollsTail(rolls);
        AttackRunKeepsArmyFloor(b, cur, ps, rolls[1..]);
      }
    }
  }

  class AI {
    var difficulty: Difficulty
    var maxAttacksPerTurn: nat

    constructor()
      ensures difficulty == Medium && maxAttacksPerTurn == 3
    {
      difficulty := Medium;
      maxAttacksPerTurn := 3;
    }

    /**
     * One more army on the first owned territory with the longest neighbour
     * list, then the attack phase. The source's `reduce` has no initial
     * value, so it needs at least one owned territory.
     */
    method MakeReinforcementMove(game: Game)
      requires game.HasCurrentPlayer() && WellFormed(game.territories)
      requires CountOwned(game.territories, game.CurrentPlayer().id) > 0
      modifies game`territories, game`currentPhase
      ensures game.territories == ReinforcedByOne(old(game.territories), game.CurrentPlayer().id)
      ensures game.currentPhase == Attack
    {
      var ts := game.territories;
      var cur := game.CurrentPlayer().id;
      var targetTerritory := MostConnected(ts, cur).value;
      AddArmiesPicked(ts, MostConnected(ts, cur), targetTerritory, 1);
      game.SetArmies(ts[targetTerritory].id, ts[targetTerritory].armies + 1);
      game.currentPhase := Attack;
    }

    /** The nested loops of makeAttackMove: keep the first pair with the strictly highest score. */
    method FindBestAttack(game: Game) returns (best: Option<(int, int)>)
      requires game.HasCurrentPlayer() && WellFormed(game.territories)
      ensures best == BestAttack(game.territories, game.CurrentPlayer().id)
    {
      var ts := game.territories;
      var cur := game.CurrentPlayer().id;
      var aiTerritories := Candidates(ts, cur, SourceOf, |ts|);
      best := None;
      var bestScore := 0;
      ghost var seen: seq<(int, int)> := [];
      for s := 0 to |aiTerritories|
        invariant seen == PairsFrom(ts, cur, aiTerritories[..s])
        invariant best == BestOf(ts, seen)
        invariant best.Some? ==> bestScore == PairScore(ts, best.value)
      {
        PairsFromSnoc(ts, cur, aiTerritories, s);
        best, bestScore, seen := ScanTargets(ts, cur, aiTerritories[s], best, bestScore, seen);
      }
      assert aiTerritories[..|aiTerritories|] == aiTerritories;
    }

    /** The inner loop of makeAttackMove: offer every enemy neighbour of `source` to the running best. */
    method ScanTargets(ts: seq<Territory>, cur: PlayerId, source: int, best: Option<(int, int)>, bestScore: int,
                       ghost seen: seq<(int, int)>)
      returns (best': Option<(int, int)>, bestScore': int, ghost seen': seq<(int, int)>)
      requires RefsValid(ts) && 0 <= source < |ts| && PairsIn(seen, |ts|)
      requires best == BestOf(ts, seen) && (best.Some? ==> bestScore == PairScore(ts, best.value))
      ensures seen' == seen + PairsOf(ts, cur, source) && PairsIn(seen', |ts|)
      ensures best' == BestOf(ts, seen') && (best'.Some? ==> bestScore' == PairScore(ts, best'.value))
    {
      var attackableNeighbors := EnemiesIn(ts, cur, ts[source].neighbors);
      ghost var row := PairsOf(ts, cur, source);
      best', bestScore', seen' := best, bestScore, seen;
      for t := 0 to |attackableNeighbors|
        invariant seen' == seen + row[..t]
        invariant PairsIn(seen', |ts|)
        invariant best' == BestOf(ts, seen')
        invariant best'.Some? ==> bestScore' == PairScore(ts, best'.value)
      {
        var target := attackableNeighbors[t];
        var score := (ts[source].armies - ts[target].armies) + |ts[target].neighbors|;
        BestOfSnoc(ts, seen', (source, target));
        if best'.None? || score > bestScore' {
          bestScore' := score;
          best' := Some((source, target));
        }
        PrefixSnoc(row, t);
        assert row[t] == (source, target);
        AppendSnoc(seen, row[..t], row[t]);
        seen' := seen' + [(source, target)];
      }
      assert row[..|attackableNeighbors|] == row;
    }

    /**
     * Up to `maxAttacksPerTurn` combats, each on the best pair of the moment;
     * a winner ends the sequence without passing the turn, otherwise the turn
     * passes once no pair is left or the budget is spent.
     */
    method MakeAttackMove(game: Game, rolls: seq<Dice>) returns (attacks: nat, won: bool)
      requires game.HasCurrentPlayer() && WellFormed(game.territories)
      requires |rolls| == maxAttacksPerTurn && ValidRolls(rolls)
      modifies game`territories, game`currentPlayerIndex, game`currentPhase, game`selectedTerritory,
               game`attackSource, game`availableReinforcements
      ensures Run(game.territories, attacks, won) ==
        AttackRun(old(game.territories), old(game.CurrentPlayer().id), game.players, rolls)
      ensures won ==> game.currentPlayerIndex == old(game.currentPlayerIndex) && game.currentPhase == old(game.currentPhase)
      ensures !won ==> game.currentPlayerIndex == NextIndex(old(game.currentPlayerIndex), |game.players|) &&
                       game.currentPhase == Reinforcement
      ensures won ==> unchanged(game`selectedTerritory, game`attackSource, game`availableReinforcements)
      ensures !won ==> game.HasCurrentPlayer() && game.selectedTerritory == None && game.attackSource == None &&
                       game.availableReinforcements == ReinforcementPool(CountOwned(game.territories, game.CurrentPlayer().id))
    {
      hide BestAttack, AttackRun, FightBest;
      ghost var cur := game.CurrentPlayer().id;
      ghost var ps := game.players;
      ghost var total := AttackRun(game.territories, cur, ps, rolls);
      attacks, won := 0, false;
      while true
        invariant attacks <= |rolls| && !won && game.players == ps
        invariant game.HasCurrentPlayer() && game.CurrentPlayer().id == cur && WellFormed(game.territories)
        invariant game.currentPlayerIndex == old(game.currentPlayerIndex) && game.currentPhase == old(game.currentPhase)
        invariant unchanged(game`selectedTerritory, game`attackSource, game`availableReinforcements)
        invariant total == Shifted(AttackRun(game.territories, cur, ps, rolls[attacks..]), attacks)
        decreases |rolls| - attacks
      {
        if attacks >= maxAttacksPerTurn {
          AttackRunEnds(game.territories, cur, ps, rolls, attacks, total);
          game.NextTurn();
          return;
        }
        ghost var before := game.territories;
        var fought, winner := NextAttack(game, rolls[attacks]);
        if !fought {
          AttackRunEnds(before, cur, ps, rolls, attacks, total);
          game.NextTurn();
          return;
        }
        AttackRunAdvances(before, cur, ps, rolls, attacks, total);
        attacks := attacks + 1;
        if winner {
          won := true;
          return;
        }
      }
    }

    /**
     * One call of the source's `makeNextAttack` closure after the budget
     * check: fight the best pair if there is one, then look for a winner.
     */
    method NextAttack(game: Game, dice: Dice) returns (fought: bool, winner: bool)
      requires game.HasCurrentPlayer() && WellFormed(game.territories) && ValidDice(dice)
      modifies game`territories
      ensures fought <==> BestAttack(old(game.territories), game.CurrentPlayer().id).Some?
      ensures !fought ==> game.territories == old(game.territories) && !winner
      ensures fought ==> game.territories == FightBest(old(game.territories), game.CurrentPlayer().id, dice) &&
                         winner == Winner(game.territories, game.players).Some?
    {
      var best := FindBestAttack(game);
      if best.None? {
        return false, false;
      }
      var (source, target) := best.value;
      var _ := game.ResolveCombat(game.territories[source].id, game.territories[target].id, dice);
      fought := true;
      winner := game.CheckWinCondition().Some?;
    }

    /** Reinforce in the reinforcement phase, attack in the attack phase. */
    method MakeMove(game: Game, rolls: seq<Dice>)
      requires game.HasCurrentPlayer() && WellFormed(game.territories)
      requires game.currentPhase == Reinforcement ==> CountOwned(game.territories, game.CurrentPlayer().id) > 0
      requires |rolls| == maxAttacksPerTurn && ValidRolls(rolls)
      modifies game`territories, game`currentPlayerIndex, game`currentPhase, game`selectedTerritory,
               game`attackSource, game`availableReinforcements
      ensures old(game.currentPhase) == Reinforcement ==>
        game.territories == ReinforcedByOne(old(game.territories), old(game.CurrentPlayer().id)) &&
        game.currentPhase == Attack && game.currentPlayerIndex == old(game.currentPlayerIndex) &&
        unchanged(game`selectedTerritory, game`attackSource, game`availableReinforcements)
      ensures old(game.currentPhase) == Attack ==>
        var run := AttackRun(old(game.territories), old(game.CurrentPlayer().id), game.players, rolls);
        game.territories == run.board &&
        (run.won ==> game.currentPhase == Attack && game.currentPlayerIndex == old(game.currentPlayerIndex) &&
                     unchanged(game`selectedTerritory, game`attackSource, game`availableReinforcements)) &&
        (!run.won ==> game.currentPlayerIndex == NextIndex(old(game.currentPlayerIndex), |game.players|) &&
                      game.currentPhase == Reinforcement && game.HasCurrentPlayer() &&
                      game.selectedTerritory == None && game.attackSource == None &&
                      game.availableReinforcements == ReinforcementPool(CountOwned(game.territories, game.CurrentPlayer().id)))
    {
      if game.currentPhase == Reinforcement {
        MakeReinforcementMove(game);
      } else {
        var _, _ := MakeAttackMove(game, rolls);
      }
    }
  }
}
