/**
 * Shared vocabulary of the territory-conquest game: the territory and player
 * records every component reads and writes, the lookup by id that the game
 * state uses everywhere (`Array.prototype.find`), and the "first maximum"
 * reduction that all of the AI's selections are built on.
 */
module Board {

  datatype Option<T> = None | Some(value: T)

  /** Player ids are the 1-based positions in the player list. */
  type PlayerId = int

  /**
   * One territory record. `col`/`row` are the grid coordinates the map
   * generator stores; pixel positions are abstracted into them.
   * `owner == None` is the source's `null` owner.
   */
  datatype Territory = Territory(
    id: int,
    col: int,
    row: int,
    armies: int,
    owner: Option<PlayerId>,
    neighbors: seq<int>)

  datatype Phase = Reinforcement | Attack

  datatype Difficulty = Easy | Medium | Hard

  datatype Personality = Aggressive | Defensive | Balanced

  datatype Player = Player(id: PlayerId, color: string, isAI: bool, aiDifficulty: Difficulty)

  /** One six-sided die roll per side of a combat. */
  datatype Dice = Dice(attacker: int, defender: int)

  predicate ValidDice(d: Dice) {
    1 <= d.attacker <= 6 && 1 <= d.defender <= 6
  }

  function Max(a: int, b: int): int { if a >= b then a else b }

  function Min(a: int, b: int): int { if a <= b then a else b }

  /**
   * `territories.find(t => t.id === id)`: the position of the first territory
   * carrying `id`, or None when no territory carries it.
   */
  function Find(ts: seq<Territory>, id: int): (r: Option<nat>)
    ensures r.Some? ==> r.value < |ts| && ts[r.value].id == id
    ensures r.Some? ==> forall k :: 0 <= k < r.value ==> ts[k].id != id
    ensures r.None? <==> forall k :: 0 <= k < |ts| ==> ts[k].id != id
  {
    if |ts| == 0 then None
    else if ts[0].id == id then Some(0)
    else
      match Find(ts[1..], id)
      case None => None
      case Some(k) => Some(k + 1)
  }

  /** Every territory's id is its position in the list (what the map generator produces). */
  ghost predicate IdsAreIndices(ts: seq<Territory>) {
    forall i :: 0 <= i < |ts| ==> ts[i].id == i
  }

  /** No two territories share an id. */
  ghost predicate UniqueIds(ts: seq<Territory>) {
    forall i, j :: 0 <= i < |ts| && 0 <= j < |ts| && ts[i].id == ts[j].id ==> i == j
  }

  /** Every neighbour reference names a position of the list. */
  ghost predicate RefsValid(ts: seq<Territory>) {
    forall i, k :: 0 <= i < |ts| && 0 <= k < |ts[i].neighbors| ==> 0 <= ts[i].neighbors[k] < |ts|
  }

  /** A board on which an id-keyed lookup always succeeds and is a plain index. */
  ghost predicate WellFormed(ts: seq<Territory>) {
    IdsAreIndices(ts) && RefsValid(ts)
  }

  /** `b` is `a` with possibly different owners and army counts, and nothing else changed. */
  ghost predicate SameBoard(a: seq<Territory>, b: seq<Territory>) {
    |a| == |b| &&
    forall i :: 0 <= i < |a| ==>
      a[i].id == b[i].id && a[i].col == b[i].col && a[i].row == b[i].row && a[i].neighbors == b[i].neighbors
  }

  /** Every owned territory holds at least one army. */
  ghost predicate ArmyFloor(ts: seq<Territory>) {
    forall i :: 0 <= i < |ts| && ts[i].owner.Some? ==> ts[i].armies >= 1
  }

  lemma IdsAreIndicesUnique(ts: seq<Territory>)
    requires IdsAreIndices(ts)
    ensures UniqueIds(ts)
  {
  }

  /** On a board whose ids are positions, finding id `i` yields position `i`. */
  lemma FindIndex(ts: seq<Territory>, i: int)
    requires IdsAreIndices(ts)
    ensures 0 <= i < |ts| ==> Find(ts, i) == Some(i)
    ensures !(0 <= i < |ts|) ==> Find(ts, i) == None
  {
    if 0 <= i < |ts| {
      IdsAreIndicesUnique(ts);
      FindOwnId(ts, i);
    }
  }

  /** With unique ids, finding the id of the territory at `i` yields `i`. */
  lemma FindOwnId(ts: seq<Territory>, i: nat)
    requires UniqueIds(ts) && i < |ts|
    ensures Find(ts, ts[i].id) == Some(i)
  {
  }

  lemma SameBoardWellFormed(a: seq<Territory>, b: seq<Territory>)
    requires SameBoard(a, b) && WellFormed(a)
    ensures WellFormed(b)
  {
    assert forall i, k :: 0 <= i < |b| && 0 <= k < |b[i].neighbors| ==> b[i].neighbors[k] == a[i].neighbors[k];
  }

  /**
   * `xs.reduce((best, cur) => score(cur) > (best ? score(best) : -Infinity) ? cur : best, null)`
   * over precomputed scores: the position of the FIRST maximal score, None for an
   * empty list. The comparison is strict, so a later tie never displaces an
   * earlier maximum.
   */
  function FirstMax(scores: seq<int>): (r: Option<nat>)
    ensures r.None? <==> |scores| == 0
    ensures r.Some? ==> r.value < |scores|
    ensures r.Some? ==> forall k :: 0 <= k < |scores| ==> scores[k] <= scores[r.value]
    ensures r.Some? ==> forall k :: 0 <= k < r.value ==> scores[k] < scores[r.value]
  {
    if |scores| == 0 then None
    else
      var best := FirstMax(scores[..|scores| - 1]);
      if best.None? || scores[|scores| - 1] > scores[best.value] then Some(|scores| - 1) else best
  }

  /** Position `k` holds a maximal score and no earlier position ties it. */
  ghost predicate IsFirstMax(scores: seq<int>, k: int)
  {
    0 <= k < |scores| &&
    (forall m :: 0 <= m < |scores| ==> scores[m] <= scores[k]) &&
    (forall m :: 0 <= m < k ==> scores[m] < scores[k])
  }

  /** FirstMax of a list extended by one score: exactly one step of the reduce. */
  lemma FirstMaxSnoc(scores: seq<int>, x: int)
    ensures FirstMax(scores + [x]) ==
      (var best := FirstMax(scores);
       if best.None? || x > scores[best.value] then Some(|scores|) else best)
  {
    assert (scores + [x])[..|scores|] == scores;
  }
}
