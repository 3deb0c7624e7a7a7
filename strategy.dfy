/**
 * The heuristic AI player (js/ai-player.js). Territory look-ups by id are
 * plain indexing on a well-formed board (ids are positions and every
 * neighbour reference is a position). The scores and selections are pure
 * functions; AIPlayer's methods change the game through setArmies and
 * resolveCombat and are proved to leave the board the specification
 * functions `Reinforced` and `Attacked` describe. The random choices of the
 * easy mode are indices passed in, and the `width * height / 100` size term
 * is an abstract function of the territory id.
 */
module Strategy {
  import opened Board
  import opened Rules

  /** The size term of a territory's score, by territory id. */
  type SizeOf = int -> int

  // ---------------------------------------------------------------------------
  // Neighbour counts

  /** How many entries of `ns` name a territory not owned by `cur`. */
  function EnemyCount(ts: seq<Territory>, cur: PlayerId, ns: seq<int>): (r: nat)
    requires InRange(ns, |ts|)
    ensures r <= |ns|
    ensures r == 0 <==> forall k :: 0 <= k < |ns| ==> ts[ns[k]].owner == Some(cur)
  {
    if |ns| == 0 then 0
    else EnemyCount(ts, cur, ns[..|ns| - 1]) + (if ts[ns[|ns| - 1]].owner != Some(cur) then 1 else 0)
  }

  /** How many entries of `ns` name a territory owned by `cur`. */
  function FriendlyCount(ts: seq<Territory>, cur: PlayerId, ns: seq<int>): (r: nat)
    requires InRange(ns, |ts|)
    ensures r <= |ns|
    ensures r == 0 <==> forall k :: 0 <= k < |ns| ==> ts[ns[k]].owner != Some(cur)
  {
    if |ns| == 0 then 0
    else FriendlyCount(ts, cur, ns[..|ns| - 1]) + (if ts[ns[|ns| - 1]].owner == Some(cur) then 1 else 0)
  }

  /** Every neighbour entry is counted exactly once, as friendly or as enemy. */
  lemma {:induction false} EnemyPlusFriendly(ts: seq<Territory>, cur: PlayerId, ns: seq<int>)
    requires InRange(ns, |ts|)
    ensures EnemyCount(ts, cur, ns) + FriendlyCount(ts, cur, ns) == |ns|
  {
    if |ns| > 0 {
      EnemyPlusFriendly(ts, cur, ns[..|ns| - 1]);
    }
  }

  /** The distinct owners (null included) of the entries of `ns` not owned by `cur`. */
  function EnemyOwners(ts: seq<Territory>, cur: PlayerId, ns: seq<int>): (r: set<Option<PlayerId>>)
    requires InRange(ns, |ts|)
    ensures forall o :: o in r ==> o != Some(cur) && exists k :: 0 <= k < |ns| && ts[ns[k]].owner == o
    ensures forall k :: 0 <= k < |ns| && ts[ns[k]].owner != Some(cur) ==> ts[ns[k]].owner in r
  {
    if |ns| == 0 then {}
    else
      var last := ts[ns[|ns| - 1]].owner;
      EnemyOwners(ts, cur, ns[..|ns| - 1]) + (if last != Some(cur) then {last} else {})
  }

  /** There are never more distinct enemy owners than enemy entries. */
  lemma {:induction false} EnemyOwnersBound(ts: seq<Territory>, cur: PlayerId, ns: seq<int>)
    requires InRange(ns, |ts|)
    ensures |EnemyOwners(ts, cur, ns)| <= EnemyCount(ts, cur, ns)
  {
    if |ns| > 0 {
      EnemyOwnersBound(ts, cur, ns[..|ns| - 1]);
    }
  }

  /** `ns.some(n => get(n).owner !== cur)`. */
  predicate AnyEnemy(ts: seq<Territory>, cur: PlayerId, ns: seq<int>)
    requires InRange(ns, |ts|)
  {
    exists k :: 0 <= k < |ns| && ts[ns[k]].owner != Some(cur)
  }

  // ---------------------------------------------------------------------------
  // Candidate filters

  /** The three position filters the AI applies to the board. */
  datatype Filter =
    | OwnedBy   // `t.owner === cur`
    | BorderOf  // owned, with some neighbour not owned by `cur`
    | SourceOf  // owned, with more than one army

  predicate Keeps(ts: seq<Territory>, cur: PlayerId, f: Filter, p: nat)
    requires RefsValid(ts) && p < |ts|
  {
    ts[p].owner == Some(cur) &&
    match f
    case OwnedBy => true
    case BorderOf => AnyEnemy(ts, cur, ts[p].neighbors)
    case SourceOf => ts[p].armies > 1
  }

  /** `territories.filter(...)` over the positions below `upto`, as positions in board order. */
  function Candidates(ts: seq<Territory>, cur: PlayerId, f: Filter, upto: nat): (r: seq<int>)
    requires RefsValid(ts) && upto <= |ts|
    ensures InRange(r, upto)
    ensures forall k :: 0 <= k < |r| ==> Keeps(ts, cur, f, r[k])
    ensures forall p :: 0 <= p < upto && Keeps(ts, cur, f, p) ==> p in r
    ensures forall a, b :: 0 <= a < b < |r| ==> r[a] < r[b]
  {
    if upto == 0 then []
    else
      var p := upto - 1;
      var rest := Candidates(ts, cur, f, p);
      var r := rest + (if Keeps(ts, cur, f, p) then [p] else []);
      assert forall k :: 0 <= k < |rest| ==> r[k] == rest[k];
      r
  }

  /** `ns.map(get).filter(t => t.owner !== cur)`: the enemy entries of `ns`, duplicates and order kept. */
  function EnemiesIn(ts: seq<Territory>, cur: PlayerId, ns: seq<int>): (r: seq<int>)
    requires InRange(ns, |ts|)
    ensures InRange(r, |ts|) && |r| == EnemyCount(ts, cur, ns)
    ensures forall k :: 0 <= k < |r| ==> ts[r[k]].owner != Some(cur) && r[k] in ns
    ensures forall k :: 0 <= k < |ns| && ts[ns[k]].owner != Some(cur) ==> ns[k] in r
  {
    if |ns| == 0 then []
    else
      var n := ns[|ns| - 1];
      var init := ns[..|ns| - 1];
      var rest := EnemiesIn(ts, cur, init);
      var r := rest + (if ts[n].owner != Some(cur) then [n] else []);
      assert forall k :: 0 <= k < |rest| ==> r[k] == rest[k];
      forall k | 0 <= k < |ns| && ts[ns[k]].owner != Some(cur)
        ensures ns[k] in r
      {
        if k < |init| {
          assert init[k] == ns[k];
          var j :| 0 <= j < |rest| && rest[j] == ns[k];
          assert r[j] == ns[k];
        } else {
          assert r[|r| - 1] == ns[k];
        }
      }
      r
  }

  /** The possible targets of the territory at `src`. */
  function PossibleTargets(ts: seq<Territory>, cur: PlayerId, src: int): (r: seq<int>)
    requires RefsValid(ts) && 0 <= src < |ts|
    ensures InRange(r, |ts|)
    ensures forall k :: 0 <= k < |r| ==> ts[r[k]].owner != Some(cur) && r[k] in ts[src].neighbors
    ensures forall k :: 0 <= k < |ts[src].neighbors| && ts[ts[src].neighbors[k]].owner != Some(cur) ==>
      ts[src].neighbors[k] in r
    ensures |r| == EnemyCount(ts, cur, ts[src].neighbors)
  {
    EnemiesIn(ts, cur, ts[src].neighbors)
  }

  // ---------------------------------------------------------------------------
  // Scores

  /** evaluateTerritory: twice the armies, three per enemy neighbour entry, plus the size term. */
  function EvaluateTerritory(ts: seq<Territory>, cur: PlayerId, size: SizeOf, p: int): (r: int)
    requires RefsValid(ts) && 0 <= p < |ts|
    ensures var base := ts[p].armies * 2 + size(ts[p].id);
      base <= r <= base + 3 * |ts[p].neighbors|
  {
    ts[p].armies * 2 + EnemyCount(ts, cur, ts[p].neighbors) * 3 + size(ts[p].id)
  }

  /** evaluateAttackingTerritory: three per army and two per enemy neighbour entry. */
  function EvaluateAttacking(ts: seq<Territory>, cur: PlayerId, p: int): (r: int)
    requires RefsValid(ts) && 0 <= p < |ts|
    ensures 3 * ts[p].armies <= r <= 3 * ts[p].armies + 2 * |ts[p].neighbors|
  {
    ts[p].armies * 3 + EnemyCount(ts, cur, ts[p].neighbors) * 2
  }

  /** evaluateTargetTerritory: five per army of advantage, plus size, minus two per enemy neighbour of the target. */
  function EvaluateTarget(ts: seq<Territory>, cur: PlayerId, size: SizeOf, target: int, source: int): (r: int)
    requires RefsValid(ts) && 0 <= target < |ts| && 0 <= source < |ts|
    ensures var top := (ts[source].armies - ts[target].armies) * 5 + size(ts[target].id);
      top - 2 * |ts[target].neighbors| <= r <= top &&
      (r == top <==> forall k :: 0 <= k < |ts[target].neighbors| ==> ts[ts[target].neighbors[k]].owner == Some(cur))
  {
    (ts[source].armies - ts[target].armies) * 5 + size(ts[target].id) - EnemyCount(ts, cur, ts[target].neighbors) * 2
  }

  /** evaluateStrategicAttackingTerritory: the attacking score plus five per distinct enemy owner nearby. */
  function EvaluateStrategicAttacking(ts: seq<Territory>, cur: PlayerId, p: int): (r: int)
    requires RefsValid(ts) && 0 <= p < |ts|
    ensures EvaluateAttacking(ts, cur, p) <= r <= EvaluateAttacking(ts, cur, p) + 5 * EnemyCount(ts, cur, ts[p].neighbors)
  {
    EnemyOwnersBound(ts, cur, ts[p].neighbors);
    EvaluateAttacking(ts, cur, p) + |EnemyOwners(ts, cur, ts[p].neighbors)| * 5
  }

  /**
   * evaluateStrategicTargetTerritory: the target score plus three per friendly
   * and two per enemy neighbour entry of the target.
   */
  function EvaluateStrategicTarget(ts: seq<Territory>, cur: PlayerId, size: SizeOf, target: int, source: int): (r: int)
    requires RefsValid(ts) && 0 <= target < |ts| && 0 <= source < |ts|
    ensures r == (ts[source].armies - ts[target].armies) * 5 + size(ts[target].id) + 3 * FriendlyCount(ts, cur, ts[target].neighbors)
  {
    var ns := ts[target].neighbors;
    EnemyPlusFriendly(ts, cur, ns);
    EvaluateTarget(ts, cur, size, target, source) + FriendlyCount(ts, cur, ns) * 3 + EnemyCount(ts, cur, ns) * 2
  }

  /** The reinforcement score lies between its army-and-size part and that plus three per neighbour entry. */
  lemma TerritoryScoreBounds(ts: seq<Territory>, cur: PlayerId, size: SizeOf, p: int)
    requires RefsValid(ts) && 0 <= p < |ts|
    ensures var base := ts[p].armies * 2 + size(ts[p].id);
      base <= EvaluateTerritory(ts, cur, size, p) <= base + 3 * |ts[p].neighbors| &&
      (EvaluateTerritory(ts, cur, size, p) == base <==> forall k :: 0 <= k < |ts[p].neighbors| ==> ts[ts[p].neighbors[k]].owner == Some(cur))
  {
  }

  /**
   * The attacking score grows by two per enemy neighbour entry on top of three
   * per army, and is three per army exactly when every neighbour is friendly.
   */
  lemma AttackingScoreBounds(ts: seq<Territory>, cur: PlayerId, p: int)
    requires RefsValid(ts) && 0 <= p < |ts|
    ensures 3 * ts[p].armies <= EvaluateAttacking(ts, cur, p) <= 3 * ts[p].armies + 2 * |ts[p].neighbors|
    ensures EvaluateAttacking(ts, cur, p) == 3 * ts[p].armies <==>
      forall k :: 0 <= k < |ts[p].neighbors| ==> ts[ts[p].neighbors[k]].owner == Some(cur)
  {
  }

  /**
   * The hard source score exceeds the medium one by five per distinct enemy
   * owner, so by at most five per enemy neighbour entry, and equals it exactly
   * when every neighbour is friendly.
   */
  lemma StrategicAttackingScore(ts: seq<Territory>, cur: PlayerId, p: int)
    requires RefsValid(ts) && 0 <= p < |ts|
    ensures var medium := EvaluateAttacking(ts, cur, p);
      medium <= EvaluateStrategicAttacking(ts, cur, p) <= medium + 5 * EnemyCount(ts, cur, ts[p].neighbors) &&
      (EvaluateStrategicAttacking(ts, cur, p) == medium <==> EnemyCount(ts, cur, ts[p].neighbors) == 0)
  {
    var ns := ts[p].neighbors;
    EnemyOwnersBound(ts, cur, ns);
    if EnemyCount(ts, cur, ns) > 0 {
      var k :| 0 <= k < |ns| && ts[ns[k]].owner != Some(cur);
      assert ts[ns[k]].owner in EnemyOwners(ts, cur, ns);
    }
  }

  /**
   * In the hard target score the enemy terms cancel: it is five per army of
   * advantage, plus size, plus three per friendly neighbour entry of the
   * target, so at most size plus three per neighbour entry above the army term.
   */
  lemma StrategicTargetScore(ts: seq<Territory>, cur: PlayerId, size: SizeOf, target: int, source: int)
    requires RefsValid(ts) && 0 <= target < |ts| && 0 <= source < |ts|
    ensures var ns := ts[target].neighbors;
      EvaluateStrategicTarget(ts, cur, size, target, source) ==
        (ts[source].armies - ts[target].armies) * 5 + size(ts[target].id) + 3 * FriendlyCount(ts, cur, ns) &&
      EvaluateStrategicTarget(ts, cur, size, target, source) ==
        EvaluateTarget(ts, cur, size, target, source) + 3 * |ns| - EnemyCount(ts, cur, ns)
  {
    EnemyPlusFriendly(ts, cur, ts[target].neighbors);
  }

  // ---------------------------------------------------------------------------
  // Selections: `reduce` keeping the first strictly greater score

  function TerritoryScores(ts: seq<Territory>, cur: PlayerId, size: SizeOf, cands: seq<int>): (r: seq<int>)
    requires RefsValid(ts) && InRange(cands, |ts|)
    ensures |r| == |cands| && forall m :: 0 <= m < |cands| ==> r[m] == EvaluateTerritory(ts, cur, size, cands[m])
  {
    seq(|cands|, m requires 0 <= m < |cands| => EvaluateTerritory(ts, cur, size, cands[m]))
  }

  function AttackingScores(ts: seq<Territory>, cur: PlayerId, cands: seq<int>): (r: seq<int>)
    requires RefsValid(ts) && InRange(cands, |ts|)
    ensures |r| == |cands| && forall m :: 0 <= m < |cands| ==> r[m] == EvaluateAttacking(ts, cur, cands[m])
  {
    seq(|cands|, m requires 0 <= m < |cands| => EvaluateAttacking(ts, cur, cands[m]))
  }

  function StrategicAttackingScores(ts: seq<Territory>, cur: PlayerId, cands: seq<int>): (r: seq<int>)
    requires RefsValid(ts) && InRange(cands, |ts|)
    ensures |r| == |cands| && forall m :: 0 <= m < |cands| ==> r[m] == EvaluateStrategicAttacking(ts, cur, cands[m])
  {
    seq(|cands|, m requires 0 <= m < |cands| => EvaluateStrategicAttacking(ts, cur, cands[m]))
  }

  function TargetScores(ts: seq<Territory>, cur: PlayerId, size: SizeOf, cands: seq<int>, src: int): (r: seq<int>)
    requires RefsValid(ts) && InRange(cands, |ts|) && 0 <= src < |ts|
    ensures |r| == |cands| && forall m :: 0 <= m < |cands| ==> r[m] == EvaluateTarget(ts, cur, size, cands[m], src)
  {
    seq(|cands|, m requires 0 <= m < |cands| => EvaluateTarget(ts, cur, size, cands[m], src))
  }

  function StrategicTargetScores(ts: seq<Territory>, cur: PlayerId, size: SizeOf, cands: seq<int>, src: int): (r: seq<int>)
    requires RefsValid(ts) && InRange(cands, |ts|) && 0 <= src < |ts|
    ensures |r| == |cands| && forall m :: 0 <= m < |cands| ==> r[m] == EvaluateStrategicTarget(ts, cur, size, cands[m], src)
  {
    seq(|cands|, m requires 0 <= m < |cands| => EvaluateStrategicTarget(ts, cur, size, cands[m], src))
  }

  /** The candidate at the first maximal score, None for no candidates. */
  function PickFirstMax(cands: seq<int>, scores: seq<int>): (r: Option<int>)
    requires |scores| == |cands|
    ensures r.None? <==> |cands| == 0
    ensures r.Some? ==> exists k :: IsFirstMax(scores, k) && r.value == cands[k]
  {
    match FirstMax(scores)
    case None => None
    case Some(k) => assert IsFirstMax(scores, k); Some(cands[k])
  }

  /** selectBestTerritory: a random candidate in easy mode, otherwise the first best reinforcement score. */
  function SelectBestTerritory(difficulty: Difficulty, ts: seq<Territory>, cur: PlayerId, size: SizeOf,
                               cands: seq<int>, pick: nat): (r: Option<int>)
    requires RefsValid(ts) && InRange(cands, |ts|)
    ensures r.None? <==> |cands| == 0
    ensures r.Some? ==> r.value in cands
    ensures difficulty == Easy && |cands| > 0 ==> r == Some(cands[pick % |cands|])
    ensures difficulty != Easy && r.Some? ==>
      exists k :: IsFirstMax(TerritoryScores(ts, cur, size, cands), k) && r.value == cands[k]
  {
    if difficulty == Easy then
      if |cands| == 0 then None else Some(cands[pick % |cands|])
    else
      PickFirstMax(cands, TerritoryScores(ts, cur, size, cands))
  }

  /** selectBestAttackingTerritory. */
  function SelectBestAttacking(ts: seq<Territory>, cur: PlayerId, cands: seq<int>): (r: Option<int>)
    requires RefsValid(ts) && InRange(cands, |ts|)
    ensures r.None? <==> |cands| == 0
    ensures r.Some? ==> exists k :: IsFirstMax(AttackingScores(ts, cur, cands), k) && r.value == cands[k]
  {
    PickFirstMax(cands, AttackingScores(ts, cur, cands))
  }

  /** selectStrategicAttackingTerritory. */
  function SelectStrategicAttacking(ts: seq<Territory>, cur: PlayerId, cands: seq<int>): (r: Option<int>)
    requires RefsValid(ts) && InRange(cands, |ts|)
    ensures r.None? <==> |cands| == 0
    ensures r.Some? ==> exists k :: IsFirstMax(StrategicAttackingScores(ts, cur, cands), k) && r.value == cands[k]
  {
    PickFirstMax(cands, StrategicAttackingScores(ts, cur, cands))
  }

  /** selectBestTargetTerritory: the first best target score among the possible targets of `src`. */
  function SelectBestTarget(ts: seq<Territory>, cur: PlayerId, size: SizeOf, src: int): (r: Option<int>)
    requires RefsValid(ts) && 0 <= src < |ts|
    ensures var cands := PossibleTargets(ts, cur, src);
      (r.None? <==> |cands| == 0) &&
      (r.Some? ==> exists k :: IsFirstMax(TargetScores(ts, cur, size, cands, src), k) && r.value == cands[k])
  {
    var cands := PossibleTargets(ts, cur, src);
    PickFirstMax(cands, TargetScores(ts, cur, size, cands, src))
  }

  /** selectStrategicTargetTerritory. */
  function SelectStrategicTarget(ts: seq<Territory>, cur: PlayerId, size: SizeOf, src: int): (r: Option<int>)
    requires RefsValid(ts) && 0 <= src < |ts|
    ensures var cands := PossibleTargets(ts, cur, src);
      (r.None? <==> |cands| == 0) &&
      (r.Some? ==> exists k :: IsFirstMax(StrategicTargetScores(ts, cur, size, cands, src), k) && r.value == cands[k])
  {
    var cands := PossibleTargets(ts, cur, src);
    PickFirstMax(cands, StrategicTargetScores(ts, cur, size, cands, src))
  }

  // ---------------------------------------------------------------------------
  // handleReinforcement

  /** The sum of all army counts on the board. */
  function TotalArmies(ts: seq<Territory>): int
  {
    if |ts| == 0 then 0 else TotalArmies(ts[..|ts| - 1]) + ts[|ts| - 1].armies
  }

  /** Replacing one territory changes the total by the difference of its army counts. */
  lemma {:induction false} TotalArmiesUpdate(ts: seq<Territory>, i: nat, t: Territory)
    requires i < |ts|
    ensures TotalArmies(ts[i := t]) == TotalArmies(ts) - ts[i].armies + t.armies
  {
    var n := |ts| - 1;
    if i < n {
      assert ts[i := t][..n] == ts[..n][i := t];
      TotalArmiesUpdate(ts[..n], i, t);
    } else {
      assert ts[i := t][..n] == ts[..n];
    }
  }

  /** The border territory handleReinforcement picks, if there is one. */
  function ReinforcementTarget(difficulty: Difficulty, ts: seq<Territory>, cur: PlayerId, size: SizeOf, pick: nat): (r: Option<int>)
    requires RefsValid(ts)
    ensures r.Some? ==> 0 <= r.value < |ts| && Keeps(ts, cur, BorderOf, r.value)
    ensures r.None? <==> forall p :: 0 <= p < |ts| ==> !Keeps(ts, cur, BorderOf, p)
  {
    var border := Candidates(ts, cur, BorderOf, |ts|);
    var r := SelectBestTerritory(difficulty, ts, cur, size, border, pick);
    assert r.Some? ==> exists k :: 0 <= k < |border| && border[k] == r.value;
    r
  }

  /**
   * `setArmies(t.id, t.armies + amount)` on the picked position, or no change
   * when nothing was picked.
   */
  function AddArmiesAt(ts: seq<Territory>, target: Option<int>, amount: int): (r: seq<Territory>)
    requires WellFormed(ts) && (target.Some? ==> 0 <= target.value < |ts|)
    ensures SameBoard(ts, r)
  {
    match target
    case None => ts
    case Some(p) => SetArmiesIn(ts, ts[p].id, ts[p].armies + amount)
  }

  lemma AddArmiesPicked(ts: seq<Territory>, target: Option<int>, p: int, amount: int)
    requires WellFormed(ts) && target == Some(p) && 0 <= p < |ts|
    ensures AddArmiesAt(ts, target, amount) == SetArmiesIn(ts, ts[p].id, ts[p].armies + amount)
  {
  }

  /** Adding a non-negative amount to an owned territory changes that territory only, by exactly the amount. */
  lemma AddArmiesEffect(ts: seq<Territory>, p: int, amount: int)
    requires WellFormed(ts) && ArmyFloor(ts) && 0 <= p < |ts| && ts[p].owner.Some? && amount >= 0
    ensures AddArmiesAt(ts, Some(p), amount) == ts[p := ts[p].(armies := ts[p].armies + amount)]
  {
    SetArmiesAt(ts, p, amount);
  }

  /** The same change position by position: the army total grows by the amount and every other territory stays. */
  lemma AddArmiesOnly(ts: seq<Territory>, p: int, amount: int)
    requires WellFormed(ts) && ArmyFloor(ts) && 0 <= p < |ts| && ts[p].owner.Some? && amount >= 0
    ensures var r := AddArmiesAt(ts, Some(p), amount);
      |r| == |ts| && TotalArmies(r) == TotalArmies(ts) + amount &&
      r[p] == ts[p].(armies := ts[p].armies + amount) &&
      forall q :: 0 <= q < |ts| && q != p ==> r[q] == ts[q]
  {
    AddArmiesEffect(ts, p, amount);
    hide AddArmiesAt, SetArmiesIn;
    TotalArmiesUpdate(ts, p, ts[p].(armies := ts[p].armies + amount));
  }

  /** The board after handleReinforcement hands `amount` armies to the picked border territory. */
  function Reinforced(difficulty: Difficulty, ts: seq<Territory>, cur: PlayerId, size: SizeOf, pick: nat, amount: int): (r: seq<Territory>)
    requires WellFormed(ts)
    ensures SameBoard(ts, r)
  {
    AddArmiesAt(ts, ReinforcementTarget(difficulty, ts, cur, size, pick), amount)
  }

  /** Without a border territory, reinforcing changes nothing. */
  lemma ReinforcementWithoutBorder(difficulty: Difficulty, ts: seq<Territory>, cur: PlayerId, size: SizeOf, pick: nat, amount: int)
    requires WellFormed(ts)
    ensures (forall p :: 0 <= p < |ts| ==> !Keeps(ts, cur, BorderOf, p)) ==>
      Reinforced(difficulty, ts, cur, size, pick, amount) == ts
  {
    var target := ReinforcementTarget(difficulty, ts, cur, size, pick);
    hide ReinforcementTarget;
    if target.None? {
      assert Reinforced(difficulty, ts, cur, size, pick, amount) == ts;
    }
  }

  /**
   * With a border territory, exactly one border territory receives the whole
   * amount, nothing else changes, and the army total grows by the amount.
   */
  lemma ReinforcementOnBorder(difficulty: Difficulty, ts: seq<Territory>, cur: PlayerId, size: SizeOf, pick: nat, amount: int)
    requires WellFormed(ts) && ArmyFloor(ts) && amount >= 0
    ensures var r := Reinforced(difficulty, ts, cur, size, pick, amount);
      (exists p :: 0 <= p < |ts| && Keeps(ts, cur, BorderOf, p)) ==>
        |r| == |ts| && TotalArmies(r) == TotalArmies(ts) + amount &&
        exists p :: 0 <= p < |ts| && Keeps(ts, cur, BorderOf, p) &&
          r[p] == ts[p].(armies := ts[p].armies + amount) &&
          forall q :: 0 <= q < |ts| && q != p ==> r[q] == ts[q]
  {
    var target := ReinforcementTarget(difficulty, ts, cur, size, pick);
    if target.Some? {
      var p := target.value;
      assert Reinforced(difficulty, ts, cur, size, pick, amount) == AddArmiesAt(ts, Some(p), amount);
      hide *;
      AddArmiesOnly(ts, p, amount);
    }
  }

  /** On a well-formed board, raising an owned territory's armies by a non-negative amount stores the sum. */
  lemma SetArmiesAt(ts: seq<Territory>, p: int, amount: int)
    requires WellFormed(ts) && ArmyFloor(ts) && 0 <= p < |ts| && ts[p].owner.Some? && amount >= 0
    ensures SetArmiesIn(ts, ts[p].id, ts[p].armies + amount) == ts[p := ts[p].(armies := ts[p].armies + amount)]
  {
    FindIndex(ts, p);
  }

  /**
   * What the source's setArmies receives: `calculateReinforcements()` returns
   * nothing, so `target.armies + reinforcements` is NaN, and so is
   * `Math.max(1, NaN)`.
   */
  datatype JsNumber = Num(value: int) | NaN

  function JsAdd(a: JsNumber, b: JsNumber): JsNumber
  {
    if a.NaN? || b.NaN? then NaN else Num(a.value + b.value)
  }

  function JsMax(a: JsNumber, b: JsNumber): JsNumber
  {
    if a.NaN? || b.NaN? then NaN else Num(Max(a.value, b.value))
  }

  /** The value a call of a function without a return statement yields, as a number. */
  const UndefinedAsNumber: JsNumber := NaN

  /** The army count setArmies stores for the reinforced territory, as the source computes it. */
  function ReinforcedArmiesAsWritten(armies: int): JsNumber
  {
    JsMax(Num(1), JsAdd(Num(armies), UndefinedAsNumber))
  }

  /**
   * As written, the reinforced territory's army count becomes NaN for every
   * starting count, where the intended count is the old one plus the pool.
   */
  lemma ReinforcementAsWrittenIsNaN(armies: int, owned: nat)
    requires armies >= 1
    ensures ReinforcedArmiesAsWritten(armies) == NaN
    ensures JsMax(Num(1), JsAdd(Num(armies), Num(ReinforcementPool(owned)))) == Num(armies + ReinforcementPool(owned))
  {
  }

  /**
   * The army counts handleReinforcement leaves as written: the territory
   * ReinforcementTarget picks holds the as-written sum, every other one keeps
   * its count.
   */
  function ArmiesAfterReinforcementAsWritten(difficulty: Difficulty, ts: seq<Territory>, cur: PlayerId,
                                             size: SizeOf, pick: nat): (r: seq<JsNumber>)
    requires RefsValid(ts)
    ensures |r| == |ts|
  {
    var target := ReinforcementTarget(difficulty, ts, cur, size, pick);
    seq(|ts|, q requires 0 <= q < |ts| =>
      if target == Some(q) then ReinforcedArmiesAsWritten(ts[q].armies) else Num(ts[q].armies))
  }

  /**
   * As written, a reinforcement with a border territory turns that
   * territory's army count into NaN, where the intended reinforcement stores
   * a number, and leaves every other count as it was.
   */
  lemma ReinforcementAsWrittenLosesArmies(difficulty: Difficulty, ts: seq<Territory>, cur: PlayerId,
                                          size: SizeOf, pick: nat)
    requires RefsValid(ts)
    requires exists p :: 0 <= p < |ts| && Keeps(ts, cur, BorderOf, p)
    ensures var r := ArmiesAfterReinforcementAsWritten(difficulty, ts, cur, size, pick);
      exists p :: 0 <= p < |ts| && Keeps(ts, cur, BorderOf, p) && r[p] == NaN &&
        forall q :: 0 <= q < |ts| && q != p ==> r[q] == Num(ts[q].armies)
  {
    var target := ReinforcementTarget(difficulty, ts, cur, size, pick);
    var p := target.value;
    var r := ArmiesAfterReinforcementAsWritten(difficulty, ts, cur, size, pick);
    assert r[p] == NaN;
  }

  // ---------------------------------------------------------------------------
  // handleAttack

  /** The source handleAttack picks among the owned territories with more than one army. */
  function ChooseSource(difficulty: Difficulty, ts: seq<Territory>, cur: PlayerId, pickSource: nat): (r: Option<int>)
    requires RefsValid(ts)
    ensures r.Some? ==> 0 <= r.value < |ts| && Keeps(ts, cur, SourceOf, r.value)
    ensures r.None? <==> forall p :: 0 <= p < |ts| ==> !Keeps(ts, cur, SourceOf, p)
  {
    var cands := Candidates(ts, cur, SourceOf, |ts|);
    if |cands| == 0 then None
    else
      var r := match difficulty
        case Easy => Some(cands[pickSource % |cands|])
        case Medium => SelectBestAttacking(ts, cur, cands)
        case Hard => SelectStrategicAttacking(ts, cur, cands);
      assert exists k :: 0 <= k < |cands| && cands[k] == r.value;
      r
  }

  /** The target handleAttack picks among the possible targets of `src`. */
  function ChooseTarget(difficulty: Difficulty, ts: seq<Territory>, cur: PlayerId, size: SizeOf, src: int, pickTarget: nat): (r: Option<int>)
    requires RefsValid(ts) && 0 <= src < |ts|
    ensures r.Some? ==> 0 <= r.value < |ts| && ts[r.value].owner != Some(cur) && r.value in ts[src].neighbors
    ensures r.None? <==> |PossibleTargets(ts, cur, src)| == 0
  {
    var cands := PossibleTargets(ts, cur, src);
    var r := match difficulty
      case Easy => if |cands| == 0 then None else Some(cands[pickTarget % |cands|])
      case Medium => SelectBestTarget(ts, cur, size, src)
      case Hard => SelectStrategicTarget(ts, cur, size, src);
    assert r.Some? ==> exists k :: 0 <= k < |cands| && cands[k] == r.value;
    r
  }

  /** The pair (source, target) of positions handleAttack hands to resolveCombat, if any. */
  function ChooseAttack(difficulty: Difficulty, ts: seq<Territory>, cur: PlayerId, size: SizeOf,
                        pickSource: nat, pickTarget: nat): (r: Option<(int, int)>)
    requires RefsValid(ts)
    ensures r.Some? ==>
      0 <= r.value.0 < |ts| && Keeps(ts, cur, SourceOf, r.value.0) &&
      0 <= r.value.1 < |ts| && ts[r.value.1].owner != Some(cur) && r.value.1 in ts[r.value.0].neighbors
    ensures var src := ChooseSource(difficulty, ts, cur, pickSource);
      r.None? <==> src.None? || EnemyCount(ts, cur, ts[src.value].neighbors) == 0
  {
    match ChooseSource(difficulty, ts, cur, pickSource)
    case None => None
    case Some(src) =>
      match ChooseTarget(difficulty, ts, cur, size, src, pickTarget)
      case None => None
      case Some(tgt) => Some((src, tgt))
  }

  /**
   * Any pair handleAttack chooses passes canAttack; no pair is chosen exactly
   * when there is no source candidate or the chosen source has no enemy
   * neighbour.
   */
  lemma ChosenAttackIsLegal(difficulty: Difficulty, ts: seq<Territory>, cur: PlayerId, size: SizeOf,
                            pickSource: nat, pickTarget: nat)
    requires WellFormed(ts)
    ensures var choice := ChooseAttack(difficulty, ts, cur, size, pickSource, pickTarget);
      choice.Some? ==>
        LegalPair(ts, cur, choice.value.0, choice.value.1) &&
        Legal(ts, cur, ts[choice.value.0].id, ts[choice.value.1].id)
    ensures var src := ChooseSource(difficulty, ts, cur, pickSource);
      ChooseAttack(difficulty, ts, cur, size, pickSource, pickTarget).None? <==>
        src.None? || EnemyCount(ts, cur, ts[src.value].neighbors) == 0
  {
    var choice := ChooseAttack(difficulty, ts, cur, size, pickSource, pickTarget);
    if choice.Some? {
      var (i, j) := choice.value;
      IdsAreIndicesUnique(ts);
      assert ts[j].id == j;
      assert LegalPair(ts, cur, i, j);
    }
  }

  /** The board after handleAttack: the chosen combat, or no change. */
  function Attacked(difficulty: Difficulty, ts: seq<Territory>, cur: PlayerId, size: SizeOf,
                    pickSource: nat, pickTarget: nat, dice: Dice): (r: seq<Territory>)
    requires RefsValid(ts)
    ensures SameBoard(ts, r)
    ensures ChooseAttack(difficulty, ts, cur, size, pickSource, pickTarget).None? ==> r == ts
  {
    match ChooseAttack(difficulty, ts, cur, size, pickSource, pickTarget)
    case None => ts
    case Some((i, j)) => Combat(ts, ts[i].id, ts[j].id, dice).0
  }

  /**
   * handleAttack leaves the board alone when no owned territory has more than
   * one army, or when the chosen source has no enemy neighbour.
   */
  lemma AttackWithoutChoice(difficulty: Difficulty, ts: seq<Territory>, cur: PlayerId, size: SizeOf,
                            pickSource: nat, pickTarget: nat, dice: Dice)
    requires RefsValid(ts)
    ensures (forall p :: 0 <= p < |ts| ==> ts[p].owner != Some(cur) || ts[p].armies <= 1) ==>
      Attacked(difficulty, ts, cur, size, pickSource, pickTarget, dice) == ts
    ensures var src := ChooseSource(difficulty, ts, cur, pickSource);
      src.Some? && (forall k :: 0 <= k < |ts[src.value].neighbors| ==> ts[ts[src.value].neighbors[k]].owner == Some(cur)) ==>
        Attacked(difficulty, ts, cur, size, pickSource, pickTarget, dice) == ts
  {
    var src := ChooseSource(difficulty, ts, cur, pickSource);
    if forall p :: 0 <= p < |ts| ==> ts[p].owner != Some(cur) || ts[p].armies <= 1 {
      assert forall p :: 0 <= p < |ts| ==> !Keeps(ts, cur, SourceOf, p);
    }
    if src.Some? && forall k :: 0 <= k < |ts[src.value].neighbors| ==> ts[ts[src.value].neighbors[k]].owner == Some(cur) {
      assert EnemyCount(ts, cur, ts[src.value].neighbors) == 0;
    }
  }

  /** handleAttack keeps the board's layout and, since its combat is legal, the army floor. */
  lemma AttackKeepsBoard(difficulty: Difficulty, ts: seq<Territory>, cur: PlayerId, size: SizeOf,
                         pickSource: nat, pickTarget: nat, dice: Dice)
    requires WellFormed(ts) && ValidDice(dice)
    ensures var r := Attacked(difficulty, ts, cur, size, pickSource, pickTarget, dice);
      SameBoard(ts, r) && WellFormed(r) && (ArmyFloor(ts) ==> ArmyFloor(r))
  {
    ChosenAttackIsLegal(difficulty, ts, cur, size, pickSource, pickTarget);
    var r := Attacked(difficulty, ts, cur, size, pickSource, pickTarget, dice);
    match ChooseAttack(difficulty, ts, cur, size, pickSource, pickTarget)
    case None =>
    case Some((i, j)) =>
      if ArmyFloor(ts) {
        CombatKeepsArmyFloor(ts, cur, ts[i].id, ts[j].id, dice);
      }
    SameBoardWellFormed(ts, r);
  }

  class AIPlayer {
    var difficulty: Difficulty
    var personality: Personality

    constructor(difficulty: Difficulty, personality: Personality)
      ensures this.difficulty == difficulty && this.personality == personality
    {
      this.difficulty := difficulty;
      this.personality := personality;
    }

    /** Play the current phase: reinforce in the reinforcement phase, attack in the attack phase. */
    method MakeMove(game: Game, size: SizeOf, pick: nat, pickSource: nat, pickTarget: nat, dice: Dice)
      requires game.HasCurrentPlayer() && WellFormed(game.territories) && ValidDice(dice)
      modifies game`territories, game`availableReinforcements
      ensures WellFormed(game.territories)
      ensures old(game.currentPhase) == Reinforcement ==>
        game.availableReinforcements == ReinforcementPool(CountOwned(old(game.territories), game.CurrentPlayer().id)) &&
        game.territories == Reinforced(difficulty, old(game.territories), game.CurrentPlayer().id, size, pick,
                                       game.availableReinforcements)
      ensures old(game.currentPhase) == Attack ==>
        game.availableReinforcements == old(game.availableReinforcements) &&
        game.territories == Attacked(difficulty, old(game.territories), game.CurrentPlayer().id, size,
                                     pickSource, pickTarget, dice)
    {
      if game.currentPhase == Reinforcement {
        HandleReinforcement(game, size, pick);
      } else {
        HandleAttack(game, size, pickSource, pickTarget, dice);
      }
    }

    /**
     * Recompute the pool, then give all of it to the best border territory
     * (a random one in easy mode). The three personalities of the source run
     * the same code.
     */
    method HandleReinforcement(game: Game, size: SizeOf, pick: nat)
      requires game.HasCurrentPlayer() && WellFormed(game.territories)
      modifies game`territories, game`availableReinforcements
      ensures game.availableReinforcements == ReinforcementPool(CountOwned(old(game.territories), game.CurrentPlayer().id))
      ensures game.territories == Reinforced(difficulty, old(game.territories), game.CurrentPlayer().id, size, pick,
                                             game.availableReinforcements)
      ensures WellFormed(game.territories)
    {
      game.CalculateReinforcements();
      var reinforcements := game.availableReinforcements;
      var cur := game.CurrentPlayer().id;
      var ts := game.territories;
      ghost var expected := Reinforced(difficulty, ts, cur, size, pick, reinforcements);
      SameBoardWellFormed(ts, expected);
      var borderTerritories := Candidates(ts, cur, BorderOf, |ts|);
      if |borderTerritories| > 0 {
        var target := SelectBestTerritory(difficulty, ts, cur, size, borderTerritories, pick).value;
        AddArmiesPicked(ts, ReinforcementTarget(difficulty, ts, cur, size, pick), target, reinforcements);
        game.SetArmies(ts[target].id, ts[target].armies + reinforcements);
      } else {
        assert ReinforcementTarget(difficulty, ts, cur, size, pick) == None;
      }
    }

    /** Pick a source and a target as the difficulty dictates and fight, if both exist. */
    method HandleAttack(game: Game, size: SizeOf, pickSource: nat, pickTarget: nat, dice: Dice)
      requires game.HasCurrentPlayer() && WellFormed(game.territories) && ValidDice(dice)
      modifies game`territories
      ensures game.territories == Attacked(difficulty, old(game.territories), game.CurrentPlayer().id, size,
                                           pickSource, pickTarget, dice)
      ensures WellFormed(game.territories)
      ensures old(ArmyFloor(game.territories)) ==> ArmyFloor(game.territories)
    {
      var cur := game.CurrentPlayer().id;
      var ts := game.territories;
      AttackKeepsBoard(difficulty, ts, cur, size, pickSource, pickTarget, dice);
      var territories := Candidates(ts, cur, SourceOf, |ts|);
      if |territories| == 0 {
        return;
      }
      var source := ChooseSource(difficulty, ts, cur, pickSource);
      var target := None;
      if source.Some? {
        target := ChooseTarget(difficulty, ts, cur, size, source.value, pickTarget);
      }
      if source.Some? && target.Some? {
        var _ := game.ResolveCombat(ts[source.value].id, ts[target.value].id, dice);
      }
    }
  }
}
