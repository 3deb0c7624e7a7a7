/**
 * The neighbour graph of the map generator (js/map-generator.js): the
 * threshold pass `calculateNeighbors`, which links every pair of territories
 * closer than a threshold in both directions, and the repair of
 * `ensureConnectivity`, which links every territory left without neighbours
 * to its nearest other territory. Distances are an abstract function of the
 * two cells' columns and rows.
 */
module MapEdges {
  import opened Board

  /** The distance between two cells, given by their columns and rows. */
  type Metric = (int, int, int, int) -> int

  function Dist(dist: Metric, a: Territory, b: Territory): int
  {
    dist(a.col, a.row, b.col, b.row)
  }

  /** The two boards hold the same cells (ids, columns, rows) at the same positions. */
  ghost predicate SameLayout(a: seq<Territory>, b: seq<Territory>)
  {
    |a| == |b| && forall i :: 0 <= i < |a| ==> a[i].id == b[i].id && a[i].col == b[i].col && a[i].row == b[i].row
  }

  /** Every neighbour list holds `b`'s id as often as `b`'s list holds its own id. */
  ghost predicate Symmetric(ts: seq<Territory>)
  {
    forall a, b :: 0 <= a < |ts| && 0 <= b < |ts| ==>
      multiset(ts[a].neighbors)[ts[b].id] == multiset(ts[b].neighbors)[ts[a].id]
  }

  /** No territory lists its own id. */
  ghost predicate NoSelfLoops(ts: seq<Territory>)
  {
    forall a :: 0 <= a < |ts| ==> ts[a].id !in ts[a].neighbors
  }

  // ---------------------------------------------------------------------------
  // calculateNeighbors

  /**
   * Positions `k` and `m` pass the threshold; the distance is measured from
   * the lower position to the higher one, as the pair loop does.
   */
  predicate Close(ts: seq<Territory>, dist: Metric, reach: int, k: nat, m: nat)
    requires k < |ts| && m < |ts|
  {
    if k < m then Dist(dist, ts[k], ts[m]) <= reach else Dist(dist, ts[m], ts[k]) <= reach
  }

  /**
   * The ids one pass appends to the list of the territory at `m` from the
   * positions below `upto`, in increasing position order.
   */
  function Added(ts: seq<Territory>, dist: Metric, reach: int, m: nat, upto: nat): (r: seq<int>)
    requires m < |ts| && upto <= |ts|
  {
    if upto == 0 then []
    else
      var k := upto - 1;
      Added(ts, dist, reach, m, k) + (if k != m && Close(ts, dist, reach, k, m) then [ts[k].id] else [])
  }

  /** The board after one `calculateNeighbors` pass: each list is extended, nothing else changes. */
  function WithThresholdEdges(ts: seq<Territory>, dist: Metric, reach: int): (r: seq<Territory>)
    ensures |r| == |ts|
    ensures forall m {:trigger r[m]} :: 0 <= m < |ts| ==>
      r[m] == ts[m].(neighbors := ts[m].neighbors + Added(ts, dist, reach, m, |ts|))
  {
    seq(|ts|, m requires 0 <= m < |ts| => ts[m].(neighbors := ts[m].neighbors + Added(ts, dist, reach, m, |ts|)))
  }

  /**
   * With ids equal to positions, the pass appends position `k`'s id to `m`'s
   * list exactly once when `k != m` and the pair is close, and never otherwise.
   */
  lemma {:induction false} AddedCount(ts: seq<Territory>, dist: Metric, reach: int, m: nat, upto: nat, k: nat)
    requires IdsAreIndices(ts) && m < |ts| && upto <= |ts| && k < |ts|
    ensures multiset(Added(ts, dist, reach, m, upto))[k] ==
      if k < upto && k != m && Close(ts, dist, reach, k, m) then 1 else 0
  {
    hide Close, Dist;
    if upto > 0 {
      var last := upto - 1;
      AddedCount(ts, dist, reach, m, last, k);
      var prev := Added(ts, dist, reach, m, last);
      if last != m && Close(ts, dist, reach, last, m) {
        assert multiset(Added(ts, dist, reach, m, upto))[k] == multiset(prev)[k] + if k == last then 1 else 0 by {
          assert Added(ts, dist, reach, m, upto) == prev + [ts[last].id];
          assert ts[last].id == last;
          assert multiset(prev + [last]) == multiset(prev) + multiset{last};
        }
      } else {
        assert Added(ts, dist, reach, m, upto) == prev by {
          assert Added(ts, dist, reach, m, upto) == prev + [];
        }
      }
    }
  }

  /** With ids equal to positions, the appended ids are other positions below `upto`. */
  lemma {:induction false} AddedMembers(ts: seq<Territory>, dist: Metric, reach: int, m: nat, upto: nat)
    requires IdsAreIndices(ts) && m < |ts| && upto <= |ts|
    ensures forall x :: x in Added(ts, dist, reach, m, upto) ==> 0 <= x < upto && x != m
  {
    if upto > 0 {
      var last := upto - 1;
      AddedMembers(ts, dist, reach, m, last);
      assert ts[last].id == last;
    }
  }

  /** The appended ids depend only on the layout, not on the lists already there. */
  lemma {:induction false} AddedLayout(a: seq<Territory>, b: seq<Territory>, dist: Metric, reach: int, m: nat, upto: nat)
    requires SameLayout(a, b) && m < |a| && upto <= |a|
    ensures Added(a, dist, reach, m, upto) == Added(b, dist, reach, m, upto)
  {
    if upto > 0 {
      AddedLayout(a, b, dist, reach, m, upto - 1);
    }
  }

  /** The pass adds `k` to `m`'s list exactly when it adds `m` to `k`'s, so it keeps the graph symmetric. */
  lemma ThresholdSymmetric(ts: seq<Territory>, dist: Metric, reach: int)
    requires IdsAreIndices(ts) && Symmetric(ts)
    ensures Symmetric(WithThresholdEdges(ts, dist, reach))
  {
    var r := WithThresholdEdges(ts, dist, reach);
    forall a, b | 0 <= a < |r| && 0 <= b < |r|
      ensures multiset(r[a].neighbors)[r[b].id] == multiset(r[b].neighbors)[r[a].id]
    {
      AddedCount(ts, dist, reach, a, |ts|, b);
      AddedCount(ts, dist, reach, b, |ts|, a);
    }
  }

  /** The pass never adds a self-edge and only adds ids of existing territories. */
  lemma ThresholdNoSelfLoops(ts: seq<Territory>, dist: Metric, reach: int)
    requires IdsAreIndices(ts) && NoSelfLoops(ts) && RefsValid(ts)
    ensures NoSelfLoops(WithThresholdEdges(ts, dist, reach)) && RefsValid(WithThresholdEdges(ts, dist, reach))
  {
    var r := WithThresholdEdges(ts, dist, reach);
    forall a | 0 <= a < |r|
      ensures r[a].id !in r[a].neighbors
      ensures forall k :: 0 <= k < |r[a].neighbors| ==> 0 <= r[a].neighbors[k] < |r|
    {
      AddedMembers(ts, dist, reach, a, |ts|);
      var added := Added(ts, dist, reach, a, |ts|);
      forall k | 0 <= k < |r[a].neighbors|
        ensures 0 <= r[a].neighbors[k] < |r|
      {
        if k >= |ts[a].neighbors| {
          assert r[a].neighbors[k] == added[k - |ts[a].neighbors|];
          assert added[k - |ts[a].neighbors|] in added;
        } else {
          assert r[a].neighbors[k] == ts[a].neighbors[k];
        }
      }
    }
  }

  /**
   * The generator runs the pass twice (once directly and once at the start of
   * the repair), and the pass only appends, so every threshold edge is listed
   * twice.
   */
  lemma ThresholdTwice(ts: seq<Territory>, dist: Metric, reach: int)
    requires IdsAreIndices(ts)
    ensures var r := WithThresholdEdges(WithThresholdEdges(ts, dist, reach), dist, reach);
      forall a, b :: 0 <= a < |ts| && 0 <= b < |ts| ==>
        multiset(r[a].neighbors)[b] ==
          multiset(ts[a].neighbors)[b] + (if a != b && Close(ts, dist, reach, b, a) then 2 else 0)
  {
    var once := WithThresholdEdges(ts, dist, reach);
    var r := WithThresholdEdges(once, dist, reach);
    assert SameLayout(ts, once);
    forall a, b | 0 <= a < |ts| && 0 <= b < |ts|
      ensures multiset(r[a].neighbors)[b] ==
        multiset(ts[a].neighbors)[b] + (if a != b && Close(ts, dist, reach, b, a) then 2 else 0)
    {
      AddedCount(ts, dist, reach, a, |ts|, b);
      AddedLayout(ts, once, dist, reach, a, |ts|);
    }
  }

  /**
   * How far the pair loop has got for the territory at `m` when it is about
   * to compare positions `i` and `j`: the ids it has received so far are
   * those of `Added` below this bound. Pairs `(k, m)` with `k < m` come
   * before pairs `(m, k)`, so the ids arrive in increasing position order.
   */
  function Bound(m: nat, i: nat, j: nat, n: nat): nat
  {
    if m < i then n else if m == i then Min(j, n) else if m < j then i + 1 else i
  }

  /** The board the pair loop has built just before comparing positions `i` and `j`. */
  ghost function Pending(ts: seq<Territory>, dist: Metric, reach: int, i: nat, j: nat): (r: seq<Territory>)
    requires i <= |ts|
    ensures |r| == |ts|
    ensures forall m {:trigger r[m]} :: 0 <= m < |ts| ==>
      r[m] == ts[m].(neighbors := ts[m].neighbors + Added(ts, dist, reach, m, Bound(m, i, j, |ts|)))
  {
    seq(|ts|, m requires 0 <= m < |ts| =>
      ts[m].(neighbors := ts[m].neighbors + Added(ts, dist, reach, m, Bound(m, i, j, |ts|))))
  }

  /** Before the first comparison nothing has been added. */
  lemma PendingStart(ts: seq<Territory>, dist: Metric, reach: int)
    ensures Pending(ts, dist, reach, 0, 1) == ts
  {
    var r := Pending(ts, dist, reach, 0, 1);
    forall m | 0 <= m < |ts|
      ensures r[m] == ts[m]
    {
      assert Added(ts, dist, reach, m, Bound(m, 0, 1, |ts|)) == [];
      assert ts[m].neighbors + [] == ts[m].neighbors;
    }
  }

  /** Comparing `i` with `j` links them when they are close, and moves the loop on to `j + 1`. */
  lemma PendingStep(ts: seq<Territory>, dist: Metric, reach: int, i: nat, j: nat)
    requires i < j < |ts|
    ensures Pending(ts, dist, reach, i, j + 1) ==
      if Dist(dist, ts[i], ts[j]) <= reach then Link(Pending(ts, dist, reach, i, j), i, j)
      else Pending(ts, dist, reach, i, j)
  {
    var n := |ts|;
    var cur := Pending(ts, dist, reach, i, j);
    var next := Pending(ts, dist, reach, i, j + 1);
    var close := Dist(dist, ts[i], ts[j]) <= reach;
    assert Close(ts, dist, reach, j, i) == close && Close(ts, dist, reach, i, j) == close;
    assert Added(ts, dist, reach, i, j + 1) ==
      Added(ts, dist, reach, i, j) + (if close then [ts[j].id] else []);
    assert Added(ts, dist, reach, j, i + 1) ==
      Added(ts, dist, reach, j, i) + (if close then [ts[i].id] else []);
    if close {
      LinkAt(cur, i, j);
      var linked := Link(cur, i, j);
      forall m | 0 <= m < n
        ensures next[m] == linked[m]
      {
        if m != i && m != j {
          assert Bound(m, i, j + 1, n) == Bound(m, i, j, n);
        }
      }
    } else {
      forall m | 0 <= m < n
        ensures next[m] == cur[m]
      {
        if m != i && m != j {
          assert Bound(m, i, j + 1, n) == Bound(m, i, j, n);
        }
      }
    }
  }

  /** When the inner loop for `i` ends, the board is the one the outer loop expects for `i + 1`. */
  lemma PendingNext(ts: seq<Territory>, dist: Metric, reach: int, i: nat)
    requires i < |ts|
    ensures Pending(ts, dist, reach, i, |ts|) == Pending(ts, dist, reach, i + 1, i + 2)
  {
    var a := Pending(ts, dist, reach, i, |ts|);
    var b := Pending(ts, dist, reach, i + 1, i + 2);
    forall m | 0 <= m < |ts|
      ensures a[m] == b[m]
    {
      if m == i + 1 {
        assert Added(ts, dist, reach, m, i + 2) == Added(ts, dist, reach, m, i + 1);
      }
    }
  }

  /** After the last comparison the board is the threshold pass's result. */
  lemma PendingDone(ts: seq<Territory>, dist: Metric, reach: int)
    ensures Pending(ts, dist, reach, |ts|, |ts| + 1) == WithThresholdEdges(ts, dist, reach)
  {
  }

  /** The threshold pass keeps ids, cells, owners and armies. */
  lemma ThresholdKeeps(ts: seq<Territory>, dist: Metric, reach: int)
    ensures Extends(ts, WithThresholdEdges(ts, dist, reach))
    ensures IdsAreIndices(ts) ==> IdsAreIndices(WithThresholdEdges(ts, dist, reach))
    ensures forall m :: 0 <= m < |ts| ==>
      WithThresholdEdges(ts, dist, reach)[m].owner == ts[m].owner &&
      WithThresholdEdges(ts, dist, reach)[m].armies == ts[m].armies
  {
    var r := WithThresholdEdges(ts, dist, reach);
    forall m | 0 <= m < |ts|
      ensures r[m].neighbors[..|ts[m].neighbors|] == ts[m].neighbors
    {
    }
  }

  // ---------------------------------------------------------------------------
  // ensureConnectivity

  /** Positions of the territories with an empty neighbour list, in order. */
  function Isolated(ts: seq<Territory>): (r: seq<nat>)
    ensures forall s :: 0 <= s < |r| ==> r[s] < |ts| && |ts[r[s]].neighbors| == 0
    ensures forall m :: 0 <= m < |ts| && |ts[m].neighbors| == 0 ==> m in r
  {
    if |ts| == 0 then []
    else
      var m := |ts| - 1;
      Isolated(ts[..m]) + (if |ts[m].neighbors| == 0 then [m] else [])
  }

  /**
   * The running minimum over positions below `upto`: the first position whose
   * id differs from the territory at `a` and whose distance to it is strictly
   * smaller than every earlier candidate's.
   */
  function NearestUpTo(ts: seq<Territory>, dist: Metric, a: nat, upto: nat): (r: Option<nat>)
    requires a < |ts| && upto <= |ts|
    ensures r.None? <==> forall k :: 0 <= k < upto ==> ts[k].id == ts[a].id
    ensures r.Some? ==> r.value < upto && ts[r.value].id != ts[a].id
    ensures r.Some? ==> forall k :: 0 <= k < upto && ts[k].id != ts[a].id ==>
      Dist(dist, ts[r.value], ts[a]) <= Dist(dist, ts[k], ts[a])
    ensures r.Some? ==> forall k :: 0 <= k < r.value && ts[k].id != ts[a].id ==>
      Dist(dist, ts[r.value], ts[a]) < Dist(dist, ts[k], ts[a])
  {
    if upto == 0 then None
    else
      var best := NearestUpTo(ts, dist, a, upto - 1);
      var k := upto - 1;
      if ts[k].id != ts[a].id && (best.None? || Dist(dist, ts[k], ts[a]) < Dist(dist, ts[best.value], ts[a]))
      then Some(k)
      else best
  }

  /** The nearest territory depends only on the layout. */
  lemma {:induction false} NearestLayout(a: seq<Territory>, b: seq<Territory>, dist: Metric, x: nat, upto: nat)
    requires SameLayout(a, b) && x < |a| && upto <= |a|
    ensures NearestUpTo(a, dist, x, upto) == NearestUpTo(b, dist, x, upto)
  {
    if upto > 0 {
      NearestLayout(a, b, dist, x, upto - 1);
    }
  }

  /** Push each territory's id onto the other's list (`a` first, then `b`). */
  function Link(ts: seq<Territory>, a: nat, b: nat): (r: seq<Territory>)
    requires a < |ts| && b < |ts|
  {
    var first := ts[a := ts[a].(neighbors := ts[a].neighbors + [ts[b].id])];
    first[b := first[b].(neighbors := first[b].neighbors + [first[a].id])]
  }

  /** Linking two distinct positions appends one id to each of their lists and changes nothing else. */
  lemma LinkAt(ts: seq<Territory>, a: nat, b: nat)
    requires a < |ts| && b < |ts| && a != b
    ensures |Link(ts, a, b)| == |ts|
    ensures forall x :: 0 <= x < |ts| ==>
      (Link(ts, a, b)[x] ==
        ts[x].(neighbors := ts[x].neighbors + (if x == a then [ts[b].id] else if x == b then [ts[a].id] else [])))
  {
  }

  /** `b` keeps the layout of `a` and only appends to its neighbour lists. */
  ghost predicate Extends(a: seq<Territory>, b: seq<Territory>)
  {
    SameLayout(a, b) &&
    forall m :: 0 <= m < |a| ==>
      |a[m].neighbors| <= |b[m].neighbors| && b[m].neighbors[..|a[m].neighbors|] == a[m].neighbors
  }

  lemma ExtendsTrans(a: seq<Territory>, b: seq<Territory>, c: seq<Territory>)
    requires Extends(a, b) && Extends(b, c)
    ensures Extends(a, c)
  {
    forall m | 0 <= m < |a|
      ensures c[m].neighbors[..|a[m].neighbors|] == a[m].neighbors
    {
      assert c[m].neighbors[..|b[m].neighbors|] == b[m].neighbors;
      assert c[m].neighbors[..|a[m].neighbors|] == c[m].neighbors[..|b[m].neighbors|][..|a[m].neighbors|];
    }
  }

  lemma LinkIds(ts: seq<Territory>, a: nat, b: nat)
    requires a < |ts| && b < |ts| && a != b && IdsAreIndices(ts)
    ensures IdsAreIndices(Link(ts, a, b))
  {
    LinkAt(ts, a, b);
  }

  /** A link is pushed in both directions, so it keeps the graph symmetric. */
  lemma LinkSymmetric(ts: seq<Territory>, a: nat, b: nat)
    requires a < |ts| && b < |ts| && a != b
    requires IdsAreIndices(ts) && Symmetric(ts)
    ensures IdsAreIndices(Link(ts, a, b)) && Symmetric(Link(ts, a, b))
  {
    LinkAt(ts, a, b);
    var r := Link(ts, a, b);
    forall x, y | 0 <= x < |r| && 0 <= y < |r|
      ensures multiset(r[x].neighbors)[r[y].id] == multiset(r[y].neighbors)[r[x].id]
    {
      assert multiset(ts[x].neighbors)[ts[y].id] == multiset(ts[y].neighbors)[ts[x].id];
    }
  }

  /** A link between distinct ids adds no self-edge and only refers to existing positions. */
  lemma LinkNoSelfLoops(ts: seq<Territory>, a: nat, b: nat)
    requires a < |ts| && b < |ts| && a != b
    requires IdsAreIndices(ts) && NoSelfLoops(ts) && RefsValid(ts)
    ensures NoSelfLoops(Link(ts, a, b)) && RefsValid(Link(ts, a, b))
  {
    LinkAt(ts, a, b);
    var r := Link(ts, a, b);
    forall x | 0 <= x < |r|
      ensures r[x].id !in r[x].neighbors
      ensures forall k :: 0 <= k < |r[x].neighbors| ==> 0 <= r[x].neighbors[k] < |r|
    {
      assert ts[x].id !in ts[x].neighbors;
      forall k | 0 <= k < |r[x].neighbors|
        ensures 0 <= r[x].neighbors[k] < |r|
      {
        if k < |ts[x].neighbors| {
          assert r[x].neighbors[k] == ts[x].neighbors[k];
        }
      }
    }
  }

  /** A link only appends, and leaves both of its ends with a neighbour. */
  lemma LinkExtends(ts: seq<Territory>, a: nat, b: nat)
    requires a < |ts| && b < |ts| && a != b
    ensures Extends(ts, Link(ts, a, b))
    ensures |Link(ts, a, b)[a].neighbors| >= 1 && |Link(ts, a, b)[b].neighbors| >= 1
  {
    LinkAt(ts, a, b);
    var r := Link(ts, a, b);
    forall m | 0 <= m < |ts|
      ensures r[m].neighbors[..|ts[m].neighbors|] == ts[m].neighbors
    {
    }
  }

  /** One repair step: the position of an isolated territory and the position nearest to it, if any. */
  datatype Repair = Repair(at: nat, nearest: Option<nat>)

  /** Every step names existing positions and never pairs a territory with itself. */
  ghost predicate ValidPlan(ts: seq<Territory>, plan: seq<Repair>)
  {
    forall s :: 0 <= s < |plan| ==>
      plan[s].at < |ts| && (plan[s].nearest.Some? ==> plan[s].nearest.value < |ts| && plan[s].nearest.value != plan[s].at)
  }

  /**
   * The steps `ensureConnectivity` takes: the territories that are isolated
   * after the threshold pass, in order, each with its nearest other territory.
   */
  function Plan(ts: seq<Territory>, dist: Metric): (r: seq<Repair>)
    ensures |r| == |Isolated(ts)| && ValidPlan(ts, r)
    ensures forall s :: 0 <= s < |r| ==>
      r[s].at == Isolated(ts)[s] && r[s].nearest == NearestUpTo(ts, dist, Isolated(ts)[s], |ts|)
  {
    var iso := Isolated(ts);
    seq(|iso|, s requires 0 <= s < |iso| => Repair(iso[s], NearestUpTo(ts, dist, iso[s], |ts|)))
  }

  /** The board after the first `q` steps of the plan: each isolated territory linked to its nearest one. */
  function Repaired(ts: seq<Territory>, plan: seq<Repair>, q: nat): (r: seq<Territory>)
    requires q <= |plan| && ValidPlan(ts, plan)
    ensures |r| == |ts|
  {
    if q == 0 then ts
    else
      var prev := Repaired(ts, plan, q - 1);
      var step := plan[q - 1];
      if step.nearest.Some? then Link(prev, step.at, step.nearest.value) else prev
  }

  /** The repair of `ensureConnectivity` on a board whose threshold pass has already run. */
  function WithRepairEdges(ts: seq<Territory>, dist: Metric): (r: seq<Territory>)
  {
    Repaired(ts, Plan(ts, dist), |Plan(ts, dist)|)
  }

  /** Repairs keep the layout and only append to neighbour lists. */
  lemma {:induction false} RepairExtends(ts: seq<Territory>, plan: seq<Repair>, q: nat)
    requires q <= |plan| && ValidPlan(ts, plan)
    ensures Extends(ts, Repaired(ts, plan, q))
  {
    if q == 0 {
      forall m | 0 <= m < |ts|
        ensures ts[m].neighbors[..|ts[m].neighbors|] == ts[m].neighbors
      {
      }
    } else {
      RepairExtends(ts, plan, q - 1);
      var prev := Repaired(ts, plan, q - 1);
      var step := plan[q - 1];
      if step.nearest.Some? {
        LinkExtends(prev, step.at, step.nearest.value);
        ExtendsTrans(ts, prev, Link(prev, step.at, step.nearest.value));
      }
    }
  }

  /** Repairs keep the ids and keep the graph symmetric. */
  lemma {:induction false} RepairSymmetric(ts: seq<Territory>, plan: seq<Repair>, q: nat)
    requires q <= |plan| && ValidPlan(ts, plan)
    requires IdsAreIndices(ts) && Symmetric(ts)
    ensures IdsAreIndices(Repaired(ts, plan, q)) && Symmetric(Repaired(ts, plan, q))
  {
    if q > 0 {
      RepairSymmetric(ts, plan, q - 1);
      var step := plan[q - 1];
      if step.nearest.Some? {
        LinkSymmetric(Repaired(ts, plan, q - 1), step.at, step.nearest.value);
      }
    }
  }

  /** Repairs never link a territory to itself and only link existing territories. */
  lemma {:induction false} RepairNoSelfLoops(ts: seq<Territory>, plan: seq<Repair>, q: nat)
    requires q <= |plan| && ValidPlan(ts, plan)
    requires IdsAreIndices(ts) && NoSelfLoops(ts) && RefsValid(ts)
    ensures IdsAreIndices(Repaired(ts, plan, q))
    ensures NoSelfLoops(Repaired(ts, plan, q)) && RefsValid(Repaired(ts, plan, q))
  {
    if q > 0 {
      RepairNoSelfLoops(ts, plan, q - 1);
      var step := plan[q - 1];
      if step.nearest.Some? {
        LinkNoSelfLoops(Repaired(ts, plan, q - 1), step.at, step.nearest.value);
        LinkIds(Repaired(ts, plan, q - 1), step.at, step.nearest.value);
      }
    }
  }

  /** A repaired territory that has a nearest territory ends up with a neighbour. */
  lemma {:induction false} RepairLinksIsolated(ts: seq<Territory>, plan: seq<Repair>, q: nat, s: nat)
    requires q <= |plan| && ValidPlan(ts, plan)
    requires s < q && plan[s].nearest.Some?
    ensures |Repaired(ts, plan, q)[plan[s].at].neighbors| >= 1
  {
    var prev := Repaired(ts, plan, q - 1);
    var step := plan[q - 1];
    if s < q - 1 {
      RepairLinksIsolated(ts, plan, q - 1, s);
    }
    if step.nearest.Some? {
      LinkAt(prev, step.at, step.nearest.value);
      assert |Link(prev, step.at, step.nearest.value)[plan[s].at].neighbors| >= |prev[plan[s].at].neighbors|;
    }
  }

  /** Ids of the territories of the first `q` steps whose nearest territory is position `m`, in step order. */
  ghost function ReverseLinks(ts: seq<Territory>, plan: seq<Repair>, q: nat, m: nat): seq<int>
    requires q <= |plan| && ValidPlan(ts, plan)
  {
    if q == 0 then []
    else
      var step := plan[q - 1];
      ReverseLinks(ts, plan, q - 1, m) + (if step.nearest == Some(m) then [ts[step.at].id] else [])
  }

  /**
   * A territory that is not itself repaired only receives reverse edges: its
   * list gains exactly the ids of the repaired territories whose nearest
   * territory it is, in repair order.
   */
  lemma {:induction false} RepairOnlyReverse(ts: seq<Territory>, plan: seq<Repair>, q: nat, m: nat)
    requires q <= |plan| && ValidPlan(ts, plan)
    requires m < |ts| && forall s :: 0 <= s < q ==> plan[s].at != m
    ensures Repaired(ts, plan, q)[m].neighbors == ts[m].neighbors + ReverseLinks(ts, plan, q, m)
  {
    if q > 0 {
      RepairOnlyReverse(ts, plan, q - 1, m);
      RepairExtends(ts, plan, q - 1);
      var prev := Repaired(ts, plan, q - 1);
      var step := plan[q - 1];
      if step.nearest.Some? {
        LinkAt(prev, step.at, step.nearest.value);
        assert prev[step.at].id == ts[step.at].id;
      }
    }
  }

  /**
   * With at least two territories and ids equal to positions, every territory
   * has at least one neighbour after the repair.
   */
  lemma RepairMinDegree(ts: seq<Territory>, dist: Metric)
    requires IdsAreIndices(ts) && |ts| >= 2
    ensures var r := WithRepairEdges(ts, dist);
      |r| == |ts| && forall m :: 0 <= m < |r| ==> |r[m].neighbors| >= 1
  {
    var plan := Plan(ts, dist);
    var iso := Isolated(ts);
    RepairExtends(ts, plan, |plan|);
    var r := WithRepairEdges(ts, dist);
    forall m | 0 <= m < |r|
      ensures |r[m].neighbors| >= 1
    {
      if |ts[m].neighbors| == 0 {
        var s :| 0 <= s < |iso| && iso[s] == m;
        var other := if m == 0 then 1 else 0;
        assert ts[other].id != ts[m].id;
        assert plan[s].nearest.Some?;
        RepairLinksIsolated(ts, plan, |plan|, s);
      }
    }
  }
}
