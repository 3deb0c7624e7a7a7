/**
 * The game state and its phase machine (js/game.js): players, the territory
 * list, whose turn it is, the phase, the reinforcement pool, and the
 * operations that change them. The territory list is a sequence of records
 * that the methods of `Game` reassign; each method is tied to a pure function
 * of the old state, and the properties of the game are proved about those
 * functions.
 */
module Rules {
  import opened Board
  import opened Arith

  // ---------------------------------------------------------------------------
  // Territory updates by id (assignTerritory, setArmies)

  /** The new board after `assignTerritory(id, pid)`: only the first territory with `id` changes owner. */
  function AssignIn(ts: seq<Territory>, id: int, pid: PlayerId): (r: seq<Territory>)
    ensures SameBoard(ts, r)
    ensures Find(ts, id).None? ==> r == ts
    ensures Find(ts, id).Some? ==>
      var i := Find(ts, id).value;
      r[i].owner == Some(pid) && r[i].armies == ts[i].armies &&
      forall k :: 0 <= k < |ts| && k != i ==> r[k] == ts[k]
  {
    match Find(ts, id)
    case None => ts
    case Some(i) => ts[i := ts[i].(owner := Some(pid))]
  }

  /** The new board after `setArmies(id, count)`: the first territory with `id` gets `max(1, count)` armies. */
  function SetArmiesIn(ts: seq<Territory>, id: int, count: int): (r: seq<Territory>)
    ensures SameBoard(ts, r)
    ensures Find(ts, id).None? ==> r == ts
    ensures Find(ts, id).Some? ==>
      var i := Find(ts, id).value;
      r[i].armies >= 1 && r[i].armies >= count && (r[i].armies == 1 || r[i].armies == count) &&
      r[i].owner == ts[i].owner &&
      forall k :: 0 <= k < |ts| && k != i ==> r[k] == ts[k]
  {
    match Find(ts, id)
    case None => ts
    case Some(i) => ts[i := ts[i].(armies := Max(1, count))]
  }

  /** setArmies never breaks the army floor: the territory it touches ends with at least one army. */
  lemma SetArmiesKeepsFloor(ts: seq<Territory>, id: int, count: int)
    requires ArmyFloor(ts)
    ensures ArmyFloor(SetArmiesIn(ts, id, count))
  {
  }

  // ---------------------------------------------------------------------------
  // Reinforcements

  /** Number of territories owned by `pid` (`territories.filter(t => t.owner === pid).length`). */
  function CountOwned(ts: seq<Territory>, pid: PlayerId): (r: nat)
    ensures r <= |ts|
    ensures r == 0 <==> forall i :: 0 <= i < |ts| ==> ts[i].owner != Some(pid)
  {
    if |ts| == 0 then 0
    else CountOwned(ts[..|ts| - 1], pid) + (if ts[|ts| - 1].owner == Some(pid) then 1 else 0)
  }

  /** `Math.max(2, Math.floor(owned / 3))`. */
  function ReinforcementPool(owned: nat): (r: nat)
    ensures r >= 2 && 3 * r <= Max(6, owned) && owned < 3 * r + 3
  {
    Max(2, owned / 3)
  }

  lemma ReinforcementExamples()
    ensures ReinforcementPool(0) == 2 && ReinforcementPool(5) == 2 && ReinforcementPool(6) == 2
    ensures ReinforcementPool(9) == 3 && ReinforcementPool(30) == 10
  {
  }

  // ---------------------------------------------------------------------------
  // Attack legality (canAttack)

  /** The territories at positions `i` and `j` form a legal attack for player `cur`. */
  ghost predicate LegalPair(ts: seq<Territory>, cur: PlayerId, i: int, j: int)
  {
    0 <= i < |ts| && 0 <= j < |ts| &&
    ts[i].owner == Some(cur) && ts[j].owner != Some(cur) && ts[i].armies > 1 && ts[j].id in ts[i].neighbors
  }

  /**
   * `canAttack(sourceId, targetId)` for current player `cur`: both ids are found,
   * the source is owned by `cur`, the target is not, the source has more than
   * one army, and the target id is in the source's neighbour list.
   */
  function Legal(ts: seq<Territory>, cur: PlayerId, sourceId: int, targetId: int): (r: bool)
    ensures r ==> exists i, j :: LegalPair(ts, cur, i, j) && ts[i].id == sourceId && ts[j].id == targetId
    ensures UniqueIds(ts) ==>
      (r <== exists i, j :: LegalPair(ts, cur, i, j) && ts[i].id == sourceId && ts[j].id == targetId)
    ensures r ==> Find(ts, sourceId) != Find(ts, targetId)
  {
    match (Find(ts, sourceId), Find(ts, targetId))
    case (Some(i), Some(j)) =>
      ts[i].owner == Some(cur) && ts[j].owner != Some(cur) && ts[i].armies > 1 && targetId in ts[i].neighbors
    case _ => false
  }

  // ---------------------------------------------------------------------------
  // Combat (resolveCombat): one d6 per side plus floor(armies / 2)

  /** The attacker wins iff its total is STRICTLY greater: ties go to the defender. */
  predicate AttackerWins(sourceArmies: int, targetArmies: int, dice: Dice)
  {
    dice.attacker + sourceArmies / 2 > dice.defender + targetArmies / 2
  }

  /** Defender losses after a defender win: one per two points of margin, leaving at least one army. */
  function DefenderLosses(margin: int, targetArmies: int): int
  {
    Min(margin / 2, targetArmies - 1)
  }

  /** How far the defender's total exceeds the attacker's. */
  function Margin(sourceArmies: int, targetArmies: int, dice: Dice): int
  {
    (dice.defender + targetArmies / 2) - (dice.attacker + sourceArmies / 2)
  }

  /**
   * Combat between the territories at positions `i` (source) and `j` (target).
   * The updates are applied in the source's order, so a territory attacking
   * itself behaves as the one aliased record would.
   */
  function CombatAt(ts: seq<Territory>, i: nat, j: nat, dice: Dice): (r: (seq<Territory>, bool))
    requires i < |ts| && j < |ts|
    ensures SameBoard(ts, r.0)
    ensures r.1 == AttackerWins(ts[i].armies, ts[j].armies, dice)
    ensures r.0[i].armies == 1 && r.0[i].owner == ts[i].owner
    ensures forall k :: 0 <= k < |ts| && k != i && k != j ==> r.0[k] == ts[k]
    ensures i != j && r.1 ==> r.0[j].owner == ts[i].owner && r.0[j].armies == ts[i].armies - 1
    ensures i != j && !r.1 ==>
      r.0[j].owner == ts[j].owner &&
      r.0[j].armies == ts[j].armies - Max(0, DefenderLosses(Margin(ts[i].armies, ts[j].armies, dice), ts[j].armies))
  {
    var attackerTotal := dice.attacker + ts[i].armies / 2;
    var defenderTotal := dice.defender + ts[j].armies / 2;
    if attackerTotal > defenderTotal then
      var won := ts[j := ts[j].(owner := ts[i].owner, armies := ts[i].armies - 1)];
      (won[i := won[i].(armies := 1)], true)
    else
      var lost := ts[i := ts[i].(armies := 1)];
      var losses := DefenderLosses(defenderTotal - attackerTotal, lost[j].armies);
      (if losses > 0 then lost[j := lost[j].(armies := lost[j].armies - losses)] else lost, false)
  }

  /**
   * The board and the returned flag after `resolveCombat(sourceId, targetId)`
   * with the given rolls: an unknown id returns false and changes nothing.
   */
  function Combat(ts: seq<Territory>, sourceId: int, targetId: int, dice: Dice): (r: (seq<Territory>, bool))
    ensures SameBoard(ts, r.0)
    ensures Find(ts, sourceId).None? || Find(ts, targetId).None? ==> r == (ts, false)
    ensures Find(ts, sourceId).Some? && Find(ts, targetId).Some? ==>
      r == CombatAt(ts, Find(ts, sourceId).value, Find(ts, targetId).value, dice)
  {
    match (Find(ts, sourceId), Find(ts, targetId))
    case (Some(i), Some(j)) => CombatAt(ts, i, j, dice)
    case _ => (ts, false)
  }

  /**
   * A legal combat keeps every owned territory at one army or more, conquers
   * with exactly `source - 1` armies, and never lets the defender gain armies.
   */
  lemma CombatKeepsArmyFloor(ts: seq<Territory>, cur: PlayerId, sourceId: int, targetId: int, dice: Dice)
    requires ValidDice(dice) && ArmyFloor(ts) && Legal(ts, cur, sourceId, targetId)
    ensures ArmyFloor(Combat(ts, sourceId, targetId, dice).0)
    ensures var i, j := Find(ts, sourceId).value, Find(ts, targetId).value;
      var (after, won) := Combat(ts, sourceId, targetId, dice);
      && after[i].armies == 1
      && (won ==> after[j].armies == ts[i].armies - 1 >= 1 && after[j].owner == Some(cur))
      && (!won ==> after[j].armies <= ts[j].armies && after[j].owner == ts[j].owner)
      && (!won && ts[j].armies >= 1 ==> after[j].armies >= 1)
  {
    var i, j := Find(ts, sourceId).value, Find(ts, targetId).value;
    var (after, won) := CombatAt(ts, i, j, dice);
    assert i != j;
    forall k | 0 <= k < |after| && after[k].owner.Some?
      ensures after[k].armies >= 1
    {
    }
  }

  /** The spec's scenario: 4 armies attack 1 with a 6 against a 1; ownership moves, 1 and 3 armies remain. */
  lemma CombatScenarioConquest()
    ensures
      var ts := [Territory(0, 0, 0, 4, Some(1), [1]), Territory(1, 0, 1, 1, Some(2), [0])];
      Combat(ts, 0, 1, Dice(6, 1)) ==
        ([Territory(0, 0, 0, 1, Some(1), [1]), Territory(1, 0, 1, 3, Some(1), [0])], true)
  {
    var ts := [Territory(0, 0, 0, 4, Some(1), [1]), Territory(1, 0, 1, 1, Some(2), [0])];
    assert Find(ts, 0) == Some(0);
    assert Find(ts[1..], 1) == Some(0);
    assert Find(ts, 1) == Some(1);
    var after := CombatAt(ts, 0, 1, Dice(6, 1)).0;
    assert after[0] == Territory(0, 0, 0, 1, Some(1), [1]);
    assert after[1] == Territory(1, 0, 1, 3, Some(1), [0]);
    assert after == [Territory(0, 0, 0, 1, Some(1), [1]), Territory(1, 0, 1, 3, Some(1), [0])];
    assert CombatAt(ts, 0, 1, Dice(6, 1)).1;
  }

  /** Equal totals are a defender win; the defender then loses nothing (margin 0). */
  lemma CombatTieGoesToDefender(ts: seq<Territory>, sourceId: int, targetId: int, dice: Dice)
    requires Find(ts, sourceId).Some? && Find(ts, targetId).Some?
    requires Find(ts, sourceId) != Find(ts, targetId)
    requires var i, j := Find(ts, sourceId).value, Find(ts, targetId).value;
      dice.attacker + ts[i].armies / 2 == dice.defender + ts[j].armies / 2
    ensures var j := Find(ts, targetId).value;
      var (after, won) := Combat(ts, sourceId, targetId, dice);
      !won && after[j] == ts[j]
  {
  }

  // ---------------------------------------------------------------------------
  // Turn rotation (nextTurn)

  /** `(currentPlayerIndex + 1) % players.length`. */
  function NextIndex(i: int, n: int): (r: int)
    requires n > 0 && 0 <= i
    ensures 0 <= r < n
  {
    (i + 1) % n
  }

  /** The player index after `k` calls of nextTurn starting from `i`. */
  function Rotate(i: nat, n: nat, k: nat): (r: nat)
    requires n > 0
    ensures r < n || (k == 0 && r == i)
  {
    if k == 0 then i else NextIndex(Rotate(i, n, k - 1), n)
  }

  lemma ModSucc(x: nat, n: nat)
    requires n > 0
    ensures (x % n + 1) % n == (x + 1) % n
  {
    var q, r := x / n, x % n;
    assert x == q * n + r;
    if r + 1 < n {
      DivModUnique(x + 1, n, q, r + 1);
      DivModUnique(r + 1, n, 0, r + 1);
    } else {
      DivModUnique(x + 1, n, q + 1, 0);
      DivModUnique(r + 1, n, 1, 0);
    }
  }

  /** k turns after index i the index is (i + k) mod n: players are visited in order. */
  lemma {:induction false} RotateIsAddition(i: nat, n: nat, k: nat)
    requires i < n
    ensures Rotate(i, n, k) == (i + k) % n
  {
    if k > 0 {
      RotateIsAddition(i, n, k - 1);
      ModSucc(i + k - 1, n);
    }
  }

  /** After n calls of nextTurn the current player index is back where it started. */
  lemma RotateFullCircle(i: nat, n: nat)
    requires i < n
    ensures Rotate(i, n, n) == i
  {
    RotateIsAddition(i, n, n);
    DivModUnique(i + n, n, 1, i);
  }

  // ---------------------------------------------------------------------------
  // Win detection (checkWinCondition)

  /** `players.find(p => p.id === id)`. */
  function FindPlayer(ps: seq<Player>, id: PlayerId): (r: Option<Player>)
    ensures r.Some? ==> r.value in ps && r.value.id == id
    ensures r.None? <==> forall k :: 0 <= k < |ps| ==> ps[k].id != id
  {
    if |ps| == 0 then None
    else if ps[0].id == id then Some(ps[0])
    else FindPlayer(ps[1..], id)
  }

  /**
   * `checkWinCondition`: the player whose id owns the first territory, when
   * every territory has that owner and the owner is truthy (null and 0 are not).
   */
  function Winner(ts: seq<Territory>, ps: seq<Player>): (r: Option<Player>)
    ensures r.Some? ==> r.value in ps && |ts| > 0 && forall i :: 0 <= i < |ts| ==> ts[i].owner == Some(r.value.id)
    ensures |ts| > 0 &&
            (exists k :: 0 <= k < |ps| && ps[k].id != 0 && forall i :: 0 <= i < |ts| ==> ts[i].owner == Some(ps[k].id))
            ==> r.Some?
  {
    if |ts| == 0 || ts[0].owner.None? || ts[0].owner == Some(0) then None
    else if forall i :: 0 <= i < |ts| ==> ts[i].owner == ts[0].owner then FindPlayer(ps, ts[0].owner.value)
    else None
  }

  lemma WinnerScenario()
    ensures
      var ps := [Player(1, "#ff4444", false, Medium), Player(2, "#4444ff", true, Medium)];
      var ts := [Territory(0, 0, 0, 3, Some(2), [1]), Territory(1, 0, 1, 1, Some(2), [0])];
      Winner(ts, ps) == Some(ps[1]) && Winner(ts[1 := ts[1].(owner := Some(1))], ps) == None
  {
    var ps := [Player(1, "#ff4444", false, Medium), Player(2, "#4444ff", true, Medium)];
    var ts := [Territory(0, 0, 0, 3, Some(2), [1]), Territory(1, 0, 1, 1, Some(2), [0])];
    assert FindPlayer(ps[1..], 2) == Some(ps[1]);
    var ts' := ts[1 := ts[1].(owner := Some(1))];
    assert ts'[1].owner != ts'[0].owner;
  }

  // ---------------------------------------------------------------------------
  // Initial partition

  /**
   * The player index that receives slot `i` of the shuffled list when each of
   * the `p` players but the last takes `k` consecutive slots and the last
   * takes the rest (`k = floor(n / p)` in the source).
   */
  function SliceOwner(i: nat, k: nat, p: nat): (r: nat)
    requires p > 0
    ensures r < p
    decreases p
  {
    if p == 1 || i < k then 0 else 1 + SliceOwner(i - k, k, p - 1)
  }

  /**
   * Player `index` receives exactly the slots `[index * k, (index + 1) * k)`,
   * the last player every slot from `(p - 1) * k` on.
   */
  lemma {:induction false} SlotOfSlice(i: nat, k: nat, p: nat, index: nat)
    requires index < p
    requires index * k <= i
    requires index < p - 1 ==> i < (index + 1) * k
    ensures SliceOwner(i, k, p) == index
    decreases index
  {
    if index > 0 {
      assert index * k == (index - 1) * k + k;
      assert (index + 1) * k == index * k + k;
      SlotOfSlice(i - k, k, p - 1, index - 1);
    }
  }

  /**
   * Player `index` of `p` receives the slots `[index * k, end)` of the `n`
   * shuffled ids, where `k = floor(n / p)` and `end` is `(index + 1) * k`, or
   * `n` for the last player; the slices lie within the list.
   */
  lemma SliceOfPlayer(n: nat, pids: seq<PlayerId>, index: nat)
    requires index < |pids|
    ensures var p, k := |pids|, n / |pids|;
      var end := if index == p - 1 then n else (index + 1) * k;
      index * k <= end <= n &&
      forall s :: index * k <= s < end ==> SlotOwners(n, pids)[s] == pids[index]
  {
    var p, k := |pids|, n / |pids|;
    DivModUnique(n, p, k, n % p);
    MulLe(index, p - 1, k);
    MulLe(p - 1, p, k);
    if index < p - 1 {
      MulLe(index + 1, p - 1, k);
    }
    forall s | index * k <= s < (if index == p - 1 then n else (index + 1) * k)
      ensures SlotOwners(n, pids)[s] == pids[index]
    {
      SlotOfSlice(s, k, p, index);
    }
  }

  /** The ids of the players, in order. */
  function PlayerIds(ps: seq<Player>): (r: seq<PlayerId>)
    ensures |r| == |ps| && forall k :: 0 <= k < |ps| ==> r[k] == ps[k].id
  {
    seq(|ps|, k requires 0 <= k < |ps| => ps[k].id)
  }

  /** The owner of each of the `n` slots of the shuffled list. */
  function SlotOwners(n: nat, pids: seq<PlayerId>): (r: seq<PlayerId>)
    requires |pids| > 0
    ensures |r| == n
  {
    seq(n, s requires 0 <= s < n => pids[SliceOwner(s, n / |pids|, |pids|)])
  }

  /** Every entry of `order` is a position of a board of `n` territories. */
  ghost predicate InRange(order: seq<int>, n: nat) {
    forall s :: 0 <= s < |order| ==> 0 <= order[s] < n
  }

  /** No entry of `order` appears twice. */
  ghost predicate Distinct(order: seq<int>) {
    forall s, t :: 0 <= s < t < |order| ==> order[s] != order[t]
  }

  /** `order` lists every position of a board of `n` territories exactly once. */
  ghost predicate IsPermutation(order: seq<int>, n: nat) {
    |order| == n && InRange(order, n) && Distinct(order) && (forall m :: 0 <= m < n ==> m in order)
  }

  lemma SlotOwnersAt(n: nat, pids: seq<PlayerId>)
    requires |pids| > 0
    ensures forall s :: 0 <= s < n ==> SlotOwners(n, pids)[s] == pids[SliceOwner(s, n / |pids|, |pids|)]
  {
  }

  /**
   * The board after the first `j` slots of the partition loop, on a board
   * whose ids are positions: slot `s` gives territory `order[s]` to
   * `owners[s]` with 2 armies.
   */
  function Partitioned(ts: seq<Territory>, order: seq<int>, owners: seq<PlayerId>, j: nat): (r: seq<Territory>)
    requires InRange(order, |ts|) && j <= |order| == |owners|
    ensures |r| == |ts|
  {
    if j == 0 then ts
    else
      var before := Partitioned(ts, order, owners, j - 1);
      var t := order[j - 1];
      before[t := before[t].(owner := Some(owners[j - 1]), armies := 2)]
  }

  /** One slot of the loop: `assignTerritory` then `setArmies(id, 2)` on a board whose ids are positions. */
  lemma AssignThenSetArmies(ts: seq<Territory>, t: int, pid: PlayerId)
    requires IdsAreIndices(ts) && 0 <= t < |ts|
    ensures SetArmiesIn(AssignIn(ts, t, pid), t, 2) == ts[t := ts[t].(owner := Some(pid), armies := 2)]
    ensures IdsAreIndices(SetArmiesIn(AssignIn(ts, t, pid), t, 2))
  {
    FindIndex(ts, t);
    var mid := AssignIn(ts, t, pid);
    assert IdsAreIndices(mid);
    FindIndex(mid, t);
  }

  /**
   * With a shuffle of distinct positions, the first `j` slots have assigned
   * exactly the territories `order[..j]`, each to its slot's owner with
   * 2 armies, and left the rest untouched.
   */
  lemma {:induction false} PartitionPrefix(ts: seq<Territory>, order: seq<int>, owners: seq<PlayerId>, j: nat)
    requires InRange(order, |ts|) && Distinct(order) && j <= |order| == |owners|
    ensures var r := Partitioned(ts, order, owners, j);
      (forall s :: 0 <= s < j ==> r[order[s]] == ts[order[s]].(owner := Some(owners[s]), armies := 2)) &&
      (forall m :: 0 <= m < |ts| && m !in order[..j] ==> r[m] == ts[m])
  {
    if j > 0 {
      PartitionPrefix(ts, order, owners, j - 1);
      var t := order[j - 1];
      assert order[..j] == order[..j - 1] + [t];
      forall s | 0 <= s < j - 1
        ensures order[s] != t
      {
      }
    }
  }

  /**
   * The complete partition gives the territory in slot `s` to the player
   * `SliceOwner(s, floor(n / p), p)` (the player whose slice holds `s`, see
   * SlotOfSlice and SliceOfPlayer) with 2 armies.
   */
  lemma PartitionAssignsSlots(ts: seq<Territory>, order: seq<int>, pids: seq<PlayerId>)
    requires IsPermutation(order, |ts|) && |pids| > 0
    ensures var r := Partitioned(ts, order, SlotOwners(|ts|, pids), |order|);
      forall s :: 0 <= s < |ts| ==>
        r[order[s]] == ts[order[s]].(owner := Some(pids[SliceOwner(s, |ts| / |pids|, |pids|)]), armies := 2)
  {
    SlotOwnersAt(|ts|, pids);
    PartitionPrefix(ts, order, SlotOwners(|ts|, pids), |order|);
  }

  /**
   * After the complete partition every territory is owned and holds 2 armies,
   * so the board satisfies the army floor.
   */
  lemma PartitionOwnsEveryTerritory(ts: seq<Territory>, order: seq<int>, owners: seq<PlayerId>)
    requires IsPermutation(order, |ts|) && |owners| == |order|
    ensures var r := Partitioned(ts, order, owners, |order|);
      (forall m :: 0 <= m < |ts| ==> r[m].owner.Some? && r[m].armies == 2) && ArmyFloor(r)
  {
    PartitionPrefix(ts, order, owners, |order|);
    var r := Partitioned(ts, order, owners, |order|);
    forall m | 0 <= m < |ts|
      ensures r[m].owner.Some? && r[m].armies == 2
    {
      assert m in order;
      var s :| 0 <= s < |order| && order[s] == m;
      assert r[order[s]].owner == Some(owners[s]);
    }
  }

  // ---------------------------------------------------------------------------
  // The game state

  class Game {
    var players: seq<Player>
    var territories: seq<Territory>
    var currentPlayerIndex: int
    var currentPhase: Phase
    var selectedTerritory: Option<int>
    var attackSource: Option<int>
    var availableReinforcements: int

    constructor ()
      ensures players == [] && territories == []
      ensures currentPlayerIndex == 0 && currentPhase == Reinforcement
      ensures selectedTerritory == None && attackSource == None && availableReinforcements == 0
    {
      players := [];
      territories := [];
      currentPlayerIndex := 0;
      currentPhase := Reinforcement;
      selectedTerritory := None;
      attackSource := None;
      availableReinforcements := 0;
    }

    /** `this.currentPlayer` is defined (the source throws on every use otherwise). */
    ghost predicate HasCurrentPlayer()
      reads this`players, this`currentPlayerIndex
    {
      0 <= currentPlayerIndex < |players|
    }

    function CurrentPlayer(): (p: Player)
      reads this`players, this`currentPlayerIndex
      requires HasCurrentPlayer()
      ensures p in players
    {
      players[currentPlayerIndex]
    }

    /** Player ids are 1, 2, ..., n in insertion order. */
    ghost predicate SequentialPlayerIds()
      reads this`players
    {
      forall k :: 0 <= k < |players| ==> players[k].id == k + 1
    }

    /**
     * Re-initialise: two players (a human and a medium AI), the generated
     * board, the partition along the shuffled order, and the first
     * reinforcement pool.
     */
    method Initialize(generated: seq<Territory>, order: seq<int>)
      requires IdsAreIndices(generated) && IsPermutation(order, |generated|)
      modifies this
      ensures players == [Player(1, "#ff4444", false, Medium), Player(2, "#4444ff", true, Medium)]
      ensures territories == Partitioned(generated, order, SlotOwners(|order|, [1, 2]), |order|)
      ensures currentPlayerIndex == 0 && currentPhase == Reinforcement
      ensures selectedTerritory == None && attackSource == None
      ensures availableReinforcements == ReinforcementPool(CountOwned(territories, 1))
    {
      players := [];
      territories := [];
      currentPlayerIndex := 0;
      currentPhase := Reinforcement;
      selectedTerritory := None;
      attackSource := None;
      availableReinforcements := 0;
      var human := AddPlayer("#ff4444", false, Medium);
      var ai := AddPlayer("#4444ff", true, Medium);
      assert PlayerIds(players) == [1, 2];
      territories := generated;
      Partition(order);
      CalculateReinforcements();
    }

    method AddPlayer(color: string, isAI: bool, aiDifficulty: Difficulty) returns (player: Player)
      modifies this`players
      ensures player == Player(|old(players)| + 1, color, isAI, aiDifficulty)
      ensures players == old(players) + [player]
      ensures old(SequentialPlayerIds()) ==> SequentialPlayerIds()
    {
      player := Player(|players| + 1, color, isAI, aiDifficulty);
      players := players + [player];
    }

    /**
     * The partition loop: player `index` receives the slice
     * `[index * k, (index + 1) * k)` of the shuffled ids (the last player up to
     * the end), each assigned and set to 2 armies.
     */
    method Partition(order: seq<int>)
      requires IdsAreIndices(territories) && InRange(order, |territories|)
      modifies this`territories
      ensures |players| == 0 ==> territories == old(territories)
      ensures |players| > 0 ==>
        territories == Partitioned(old(territories), order, SlotOwners(|order|, PlayerIds(players)), |order|)
    {
      var n, p := |order|, |players|;
      if p == 0 {
        return;
      }
      var pids := PlayerIds(players);
      var owners := SlotOwners(n, pids);
      var k := n / p;
      var index := 0;
      while index < p
        invariant 0 <= index <= p
        invariant territories == Partitioned(old(territories), order, owners, if index == p then n else index * k)
        invariant IdsAreIndices(territories)
      {
        SliceOfPlayer(n, pids, index);
        var start := index * k;
        var end := if index == p - 1 then n else (index + 1) * k;
        AssignSlice(order, old(territories), owners, start, end, players[index].id);
        assert end == (if index + 1 == p then n else (index + 1) * k);
        index := index + 1;
      }
    }

    /**
     * The body of the partition loop for one player: slots `[start, end)` of
     * the shuffled ids go to player `pid` with 2 armies each.
     */
    method AssignSlice(order: seq<int>, ghost base: seq<Territory>, ghost owners: seq<PlayerId>,
                       start: nat, end: nat, pid: PlayerId)
      requires InRange(order, |base|) && start <= end <= |order| == |owners|
      requires forall s :: start <= s < end ==> owners[s] == pid
      requires territories == Partitioned(base, order, owners, start) && IdsAreIndices(territories)
      modifies this`territories
      ensures territories == Partitioned(base, order, owners, end) && IdsAreIndices(territories)
    {
      var i := start;
      while i < end
        invariant start <= i <= end
        invariant territories == Partitioned(base, order, owners, i)
        invariant IdsAreIndices(territories)
      {
        AssignThenSetArmies(territories, order[i], pid);
        AssignTerritory(order[i], pid);
        SetArmies(order[i], 2);
        i := i + 1;
      }
    }

    method AssignTerritory(territoryId: int, playerId: PlayerId)
      modifies this`territories
      ensures territories == AssignIn(old(territories), territoryId, playerId)
    {
      var found := Find(territories, territoryId);
      if found.Some? {
        var i := found.value;
        territories := territories[i := territories[i].(owner := Some(playerId))];
      }
    }

    method SetArmies(territoryId: int, count: int)
      modifies this`territories
      ensures territories == SetArmiesIn(old(territories), territoryId, count)
    {
      var found := Find(territories, territoryId);
      if found.Some? {
        var i := found.value;
        territories := territories[i := territories[i].(armies := Max(1, count))];
      }
    }

    method CalculateReinforcements()
      requires HasCurrentPlayer()
      modifies this`availableReinforcements
      ensures availableReinforcements == ReinforcementPool(CountOwned(territories, CurrentPlayer().id))
      ensures availableReinforcements >= 2
    {
      var owned := CountOwned(territories, CurrentPlayer().id);
      availableReinforcements := Max(2, owned / 3);
    }

    function CanAttack(sourceId: int, targetId: int): (r: bool)
      reads this
      requires HasCurrentPlayer()
      ensures r ==>
        exists i, j :: LegalPair(territories, CurrentPlayer().id, i, j) &&
                       territories[i].id == sourceId && territories[j].id == targetId
      ensures UniqueIds(territories) &&
        (exists i, j :: LegalPair(territories, CurrentPlayer().id, i, j) &&
                        territories[i].id == sourceId && territories[j].id == targetId)
        ==> r
      ensures r ==> sourceId != targetId
    {
      Legal(territories, CurrentPlayer().id, sourceId, targetId)
    }

    method ResolveCombat(sourceId: int, targetId: int, dice: Dice) returns (attackerWon: bool)
      requires ValidDice(dice)
      modifies this`territories
      ensures (territories, attackerWon) == Combat(old(territories), sourceId, targetId, dice)
      ensures SameBoard(old(territories), territories)
      ensures old(ArmyFloor(territories) && HasCurrentPlayer() && CanAttack(sourceId, targetId)) ==> ArmyFloor(territories)
    {
      var found := (Find(territories, sourceId), Find(territories, targetId));
      if found.0.None? || found.1.None? {
        return false;
      }
      var i, j := found.0.value, found.1.value;
      var attackerBonus := territories[i].armies / 2;
      var defenderBonus := territories[j].armies / 2;
      var attackerTotal := dice.attacker + attackerBonus;
      var defenderTotal := dice.defender + defenderBonus;
      if attackerTotal > defenderTotal {
        territories := territories[j := territories[j].(owner := territories[i].owner, armies := territories[i].armies - 1)];
        territories := territories[i := territories[i].(armies := 1)];
        attackerWon := true;
      } else {
        territories := territories[i := territories[i].(armies := 1)];
        var margin := defenderTotal - attackerTotal;
        var defenderLosses := Min(margin / 2, territories[j].armies - 1);
        if defenderLosses > 0 {
          territories := territories[j := territories[j].(armies := territories[j].armies - defenderLosses)];
        }
        attackerWon := false;
      }
      if old(ArmyFloor(territories) && HasCurrentPlayer() && CanAttack(sourceId, targetId)) {
        CombatKeepsArmyFloor(old(territories), old(CurrentPlayer().id), sourceId, targetId, dice);
      }
    }

    method NextTurn()
      requires HasCurrentPlayer()
      modifies this`currentPlayerIndex, this`currentPhase, this`selectedTerritory, this`attackSource,
               this`availableReinforcements
      ensures currentPlayerIndex == NextIndex(old(currentPlayerIndex), |players|)
      ensures HasCurrentPlayer()
      ensures currentPhase == Reinforcement && selectedTerritory == None && attackSource == None
      ensures availableReinforcements == ReinforcementPool(CountOwned(territories, CurrentPlayer().id))
    {
      currentPlayerIndex := (currentPlayerIndex + 1) % |players|;
      currentPhase := Reinforcement;
      selectedTerritory := None;
      attackSource := None;
      CalculateReinforcements();
    }

    function CheckWinCondition(): (r: Option<Player>)
      reads this
      ensures r.Some? ==>
        r.value in players && |territories| > 0 &&
        forall i :: 0 <= i < |territories| ==> territories[i].owner == Some(r.value.id)
      ensures |territories| > 0 &&
        (exists k :: 0 <= k < |players| && players[k].id != 0 &&
          forall i :: 0 <= i < |territories| ==> territories[i].owner == Some(players[k].id))
        ==> r.Some?
    {
      Winner(territories, players)
    }
  }
}
