/**
 * The map generator object (js/map-generator.js): it builds the hexagonal
 * grid into its `territories` list, trims the last two columns and rows,
 * renumbers the survivors, and links neighbours. Each method is proved to
 * leave exactly the board the specification functions of MapGrid and
 * MapEdges describe, and GeneratedMapShape collects what the finished map
 * guarantees to the game.
 */
module Maps {
  import opened Board
  import opened MapGrid
  import opened MapEdges

  /** The neighbour passes of a generator run: two threshold passes, then the repair. */
  ghost function Linked(ts: seq<Territory>, dist: Metric, reach: int): seq<Territory>
  {
    var once := WithThresholdEdges(ts, dist, reach);
    WithRepairEdges(WithThresholdEdges(once, dist, reach), dist)
  }

  /** The map a generator run produces for a `cols` by `rows` grid. */
  ghost function GeneratedMap(cols: nat, rows: nat, dist: Metric, reach: int): (r: seq<Territory>)
    ensures |r| == Inset(cols) * Inset(rows)
  {
    TrimFullGrid(cols, rows);
    FullGridSize(Inset(cols), Inset(rows));
    Linked(Trimmed(FullGrid(cols, rows)), dist, reach)
  }

  /** Ids equal positions, and the neighbour relation is symmetric, free of self-edges and of dangling references. */
  ghost predicate GoodGraph(ts: seq<Territory>)
  {
    IdsAreIndices(ts) && RefsValid(ts) && Symmetric(ts) && NoSelfLoops(ts)
  }

  /** `b` has the cells, owners and armies of `a`, position by position. */
  ghost predicate SameCells(a: seq<Territory>, b: seq<Territory>)
  {
    |a| == |b| &&
    forall m :: 0 <= m < |a| ==>
      b[m].col == a[m].col && b[m].row == a[m].row && b[m].owner == a[m].owner && b[m].armies == a[m].armies
  }

  /** One threshold pass keeps a good graph good and changes neighbour lists only. */
  lemma ThresholdShape(ts: seq<Territory>, dist: Metric, reach: int)
    requires GoodGraph(ts)
    ensures GoodGraph(WithThresholdEdges(ts, dist, reach)) && SameCells(ts, WithThresholdEdges(ts, dist, reach))
  {
    ThresholdKeeps(ts, dist, reach);
    ThresholdSymmetric(ts, dist, reach);
    ThresholdNoSelfLoops(ts, dist, reach);
  }

  /** The repair pass keeps a good graph good and changes neighbour lists only. */
  lemma RepairShape(ts: seq<Territory>, dist: Metric)
    requires GoodGraph(ts)
    ensures GoodGraph(WithRepairEdges(ts, dist)) && SameCells(ts, WithRepairEdges(ts, dist))
  {
    var plan := Plan(ts, dist);
    RepairExtends(ts, plan, |plan|);
    RepairSymmetric(ts, plan, |plan|);
    RepairNoSelfLoops(ts, plan, |plan|);
    RepairKeeps(ts, plan, |plan|);
  }

  /**
   * The neighbour passes keep cells, ids, owners and armies, keep the graph
   * symmetric, free of self-edges and of dangling references, and leave no
   * territory without a neighbour when there are at least two.
   */
  lemma LinkedShape(ts: seq<Territory>, dist: Metric, reach: int)
    requires GoodGraph(ts)
    ensures GoodGraph(Linked(ts, dist, reach)) && SameCells(ts, Linked(ts, dist, reach))
    ensures var r := Linked(ts, dist, reach);
      |ts| >= 2 ==> forall m :: 0 <= m < |r| ==> |r[m].neighbors| >= 1
  {
    var once := WithThresholdEdges(ts, dist, reach);
    var twice := WithThresholdEdges(once, dist, reach);
    ThresholdShape(ts, dist, reach);
    ThresholdShape(once, dist, reach);
    RepairShape(twice, dist);
    if |ts| >= 2 {
      RepairMinDegree(twice, dist);
    }
  }

  /** The trimmed grid is blank: no neighbours, owners or armies, and ids equal to positions. */
  lemma TrimmedGridBlank(cols: nat, rows: nat)
    ensures var t := Trimmed(FullGrid(cols, rows));
      IdsAreIndices(t) && RefsValid(t) && Symmetric(t) && NoSelfLoops(t) &&
      forall m :: 0 <= m < |t| ==> t[m].neighbors == [] && t[m].owner == None && t[m].armies == 0
  {
    var grid := FullGrid(cols, rows);
    FullGridLayout(cols, rows);
    TrimmedBlank(grid);
  }

  /**
   * The finished map holds the inner cells of the grid in column-major order
   * with ids equal to positions, no owners and no armies, a symmetric
   * neighbour relation without self-edges or dangling references, and, with
   * at least two territories, no territory without a neighbour.
   */
  lemma GeneratedMapShape(cols: nat, rows: nat, dist: Metric, reach: int)
    ensures var r := GeneratedMap(cols, rows, dist, reach);
      cols >= 2 && rows >= 2 ==> |r| == (cols - 2) * (rows - 2)
    ensures var r := GeneratedMap(cols, rows, dist, reach);
      IdsAreIndices(r) && RefsValid(r) && Symmetric(r) && NoSelfLoops(r)
    ensures var r := GeneratedMap(cols, rows, dist, reach);
      var cells := FullGrid(Inset(cols), Inset(rows));
      |r| == |cells| &&
      forall m :: 0 <= m < |r| ==>
        r[m].col == cells[m].col && r[m].row == cells[m].row && r[m].owner == None && r[m].armies == 0
    ensures var r := GeneratedMap(cols, rows, dist, reach);
      |r| >= 2 ==> forall m :: 0 <= m < |r| ==> |r[m].neighbors| >= 1
  {
    TrimFullGrid(cols, rows);
    TrimmedGridBlank(cols, rows);
    hide FullGrid, Trimmed, Linked;
    LinkedShape(Trimmed(FullGrid(cols, rows)), dist, reach);
  }

  /** Trimming keeps cells as they are apart from their ids. */
  lemma TrimmedBlank(grid: seq<Territory>)
    requires forall i :: 0 <= i < |grid| ==> grid[i].neighbors == [] && grid[i].owner == None && grid[i].armies == 0
    ensures var t := Trimmed(grid);
      forall m :: 0 <= m < |t| ==> t[m].neighbors == [] && t[m].owner == None && t[m].armies == 0
  {
    match (MaxOf(Cols(grid)), MaxOf(Rows(grid)))
    case (Some(maxCol), Some(maxRow)) =>
      var kept := Keep(grid, maxCol, maxRow);
      KeepMembers(grid, maxCol, maxRow);
      forall m | 0 <= m < |kept|
        ensures kept[m].neighbors == [] && kept[m].owner == None && kept[m].armies == 0
      {
        assert kept[m] in kept;
      }
    case _ =>
  }

  /** Repairs change only neighbour lists. */
  lemma {:induction false} RepairKeeps(ts: seq<Territory>, plan: seq<Repair>, q: nat)
    requires q <= |plan| && ValidPlan(ts, plan)
    ensures forall m :: 0 <= m < |ts| ==>
      Repaired(ts, plan, q)[m].owner == ts[m].owner && Repaired(ts, plan, q)[m].armies == ts[m].armies
  {
    if q > 0 {
      RepairKeeps(ts, plan, q - 1);
      var step := plan[q - 1];
      if step.nearest.Some? {
        LinkAt(Repaired(ts, plan, q - 1), step.at, step.nearest.value);
      }
    }
  }

  class MapGenerator {
    var territories: seq<Territory>

    constructor()
      ensures territories == []
    {
      territories := [];
    }

    /** Lay out the grid column by column, each cell's id being its position. */
    method CreateFullGrid(cols: nat, rows: nat)
      modifies this`territories
      ensures territories == FullGrid(cols, rows)
    {
      var grid: seq<Territory> := [];
      var col := 0;
      while col < cols
        invariant col <= cols && grid == FullGrid(col, rows)
      {
        ghost var prev := grid;
        var row := 0;
        while row < rows
          invariant row <= rows && grid == prev + Column(|prev|, col, rows)[..row]
        {
          assert Column(|prev|, col, rows)[..row + 1] == Column(|prev|, col, rows)[..row] + [Blank(|prev| + row, col, row)];
          grid := grid + [Blank(|grid|, col, row)];
          row := row + 1;
        }
        assert Column(|prev|, col, rows)[..rows] == Column(|prev|, col, rows);
        col := col + 1;
      }
      territories := grid;
    }

    /** Drop the last two columns and rows, then renumber the survivors by position. */
    method RemoveOuterTerritories()
      modifies this`territories
      ensures territories == Trimmed(old(territories))
    {
      var kept: seq<Territory> := [];
      match (MaxOf(Cols(territories)), MaxOf(Rows(territories))) {
        case (Some(maxCol), Some(maxRow)) =>
          kept := Keep(territories, maxCol, maxRow);
        case _ =>
      }
      territories := kept;
      var index := 0;
      while index < |territories|
        invariant index <= |territories| == |kept|
        invariant forall k :: 0 <= k < index ==> territories[k] == kept[k].(id := k)
        invariant forall k :: index <= k < |kept| ==> territories[k] == kept[k]
      {
        territories := territories[index := territories[index].(id := index)];
        index := index + 1;
      }
      assert territories == Renumber(kept);
    }

    /** Compare every pair once and link the pairs within reach in both directions. */
    method CalculateNeighbors(dist: Metric, reach: int)
      modifies this`territories
      ensures territories == WithThresholdEdges(old(territories), dist, reach)
    {
      hide Bound, Added;
      ghost var start := territories;
      var n := |territories|;
      PendingStart(start, dist, reach);
      var i := 0;
      while i < n
        invariant i <= n == |start|
        invariant territories == Pending(start, dist, reach, i, i + 1)
      {
        var j := i + 1;
        while j < n
          invariant i < j <= n
          invariant territories == Pending(start, dist, reach, i, j)
        {
          PendingStep(start, dist, reach, i, j);
          var t1 := territories[i];
          var t2 := territories[j];
          if Dist(dist, t1, t2) <= reach {
            territories := territories[i := t1.(neighbors := t1.neighbors + [t2.id])];
            territories := territories[j := territories[j].(neighbors := territories[j].neighbors + [t1.id])];
          }
          j := j + 1;
        }
        PendingNext(start, dist, reach, i);
        i := i + 1;
      }
      PendingDone(start, dist, reach);
    }

    /** The running minimum: the first other territory strictly closer than every earlier one. */
    method FindNearest(a: nat, dist: Metric) returns (nearest: Option<nat>)
      requires a < |territories|
      ensures nearest == NearestUpTo(territories, dist, a, |territories|)
    {
      var territory := territories[a];
      nearest := None;
      var minDistance := 0;
      var k := 0;
      while k < |territories|
        invariant k <= |territories|
        invariant nearest == NearestUpTo(territories, dist, a, k)
        invariant nearest.Some? ==> minDistance == Dist(dist, territories[nearest.value], territory)
      {
        var other := territories[k];
        if other.id != territory.id {
          var distance := Dist(dist, other, territory);
          if nearest.None? || distance < minDistance {
            minDistance := distance;
            nearest := Some(k);
          }
        }
        k := k + 1;
      }
    }

    /**
     * Run the threshold pass again, then link every territory that is still
     * isolated to its nearest other territory, in both directions.
     */
    method EnsureConnectivity(dist: Metric, reach: int)
      modifies this`territories
      ensures territories == WithRepairEdges(WithThresholdEdges(old(territories), dist, reach), dist)
    {
      CalculateNeighbors(dist, reach);
      ghost var base := territories;
      ghost var plan := Plan(base, dist);
      var isolated := Isolated(territories);
      var q := 0;
      while q < |isolated|
        invariant q <= |isolated| == |plan|
        invariant territories == Repaired(base, plan, q)
      {
        var a := isolated[q];
        RepairExtends(base, plan, q);
        NearestLayout(base, territories, dist, a, |base|);
        var nearest := FindNearest(a, dist);
        if nearest.Some? {
          var b := nearest.value;
          territories := territories[a := territories[a].(neighbors := territories[a].neighbors + [territories[b].id])];
          territories := territories[b := territories[b].(neighbors := territories[b].neighbors + [territories[a].id])];
        }
        q := q + 1;
      }
    }

    /** Build, trim and link a `cols` by `rows` map and return it. */
    method GenerateMap(cols: nat, rows: nat, dist: Metric, reach: int) returns (r: seq<Territory>)
      modifies this`territories
      ensures r == territories == GeneratedMap(cols, rows, dist, reach)
    {
      CreateFullGrid(cols, rows);
      RemoveOuterTerritories();
      CalculateNeighbors(dist, reach);
      EnsureConnectivity(dist, reach);
      r := territories;
    }
  }
}
