/**
 * The territory grid of the map generator (js/map-generator.js): the full
 * column-major grid of blank cells and the removal of its last two columns
 * and rows followed by renumbering. Pixel positions are not modelled; a cell
 * is identified by its grid column and row.
 */
module MapGrid {
  import opened Board
  import opened Arith

  /** A freshly created cell: no armies, no owner, no neighbours. */
  function Blank(id: int, col: int, row: int): Territory
  {
    Territory(id, col, row, 0, None, [])
  }

  /**
   * Column `col` of a grid with `rows` rows, pushed after `base` cells: each
   * cell's id is the grid's length when it is pushed.
   */
  function Column(base: int, col: nat, rows: nat): (r: seq<Territory>)
    ensures |r| == rows
    ensures forall row :: 0 <= row < rows ==> r[row] == Blank(base + row, col, row)
  {
    seq(rows, row => Blank(base + row, col, row))
  }

  /** The grid `createFullGrid(cols, rows)` builds: columns left to right, each top to bottom. */
  function FullGrid(cols: nat, rows: nat): (r: seq<Territory>)
    ensures |r| == cols * rows
  {
    if cols == 0 then []
    else
      var prev := FullGrid(cols - 1, rows);
      assert (cols - 1) * rows + rows == cols * rows;
      prev + Column(|prev|, cols - 1, rows)
  }

  /** The full grid has `cols * rows` cells. */
  lemma {:induction false} FullGridSize(cols: nat, rows: nat)
    ensures |FullGrid(cols, rows)| == cols * rows
  {
    if cols > 0 {
      FullGridSize(cols - 1, rows);
      assert (cols - 1) * rows + rows == cols * rows;
    }
  }

  /** A position of a `cols` by `rows` grid splits into its column and row. */
  lemma Decompose(i: nat, cols: nat, rows: nat)
    requires i < cols * rows
    ensures rows > 0 && i / rows < cols && 0 <= i % rows < rows && i == (i / rows) * rows + i % rows
  {
    assert rows > 0;
    var c := i / rows;
    assert i == c * rows + i % rows;
    assert c * rows <= i;
    MulLess(c, cols, rows);
  }

  /** Cell `(c, r)` sits at position `c * rows + r` and carries that position as its id. */
  lemma {:induction false} FullGridCell(cols: nat, rows: nat, c: nat, r: nat)
    requires c < cols && r < rows
    ensures c * rows + r < |FullGrid(cols, rows)|
    ensures FullGrid(cols, rows)[c * rows + r] == Blank(c * rows + r, c, r)
  {
    var before := FullGrid(cols - 1, rows);
    FullGridSize(cols - 1, rows);
    if c == cols - 1 {
      assert FullGrid(cols, rows)[c * rows + r] == Column(|before|, cols - 1, rows)[r];
    } else {
      FullGridCell(cols - 1, rows, c, r);
      MulLe(c + 1, cols - 1, rows);
      assert c * rows + r < |before|;
    }
  }

  /**
   * The full grid in closed form: position `i` holds the blank cell with
   * id `i` in column `i / rows` and row `i % rows`.
   */
  lemma FullGridLayout(cols: nat, rows: nat)
    ensures forall i :: 0 <= i < |FullGrid(cols, rows)| ==>
      rows > 0 && FullGrid(cols, rows)[i] == Blank(i, i / rows, i % rows)
  {
    FullGridSize(cols, rows);
    forall i | 0 <= i < |FullGrid(cols, rows)|
      ensures rows > 0 && FullGrid(cols, rows)[i] == Blank(i, i / rows, i % rows)
    {
      Decompose(i, cols, rows);
      FullGridCell(cols, rows, i / rows, i % rows);
    }
  }

  /** Every cell of the full grid lies inside the `cols` by `rows` rectangle. */
  lemma {:induction false} FullGridBounds(cols: nat, rows: nat)
    ensures forall i :: 0 <= i < |FullGrid(cols, rows)| ==>
      0 <= FullGrid(cols, rows)[i].col < cols && 0 <= FullGrid(cols, rows)[i].row < rows
  {
    if cols > 0 {
      FullGridBounds(cols - 1, rows);
      var before := FullGrid(cols - 1, rows);
      forall i | 0 <= i < |FullGrid(cols, rows)|
        ensures 0 <= FullGrid(cols, rows)[i].col < cols && 0 <= FullGrid(cols, rows)[i].row < rows
      {
        if i >= |before| {
          assert FullGrid(cols, rows)[i] == Column(|before|, cols - 1, rows)[i - |before|];
        }
      }
    }
  }

  // ---------------------------------------------------------------------------
  // removeOuterTerritories

  function Cols(ts: seq<Territory>): (r: seq<int>)
    ensures |r| == |ts| && forall i :: 0 <= i < |ts| ==> r[i] == ts[i].col
  {
    seq(|ts|, i requires 0 <= i < |ts| => ts[i].col)
  }

  function Rows(ts: seq<Territory>): (r: seq<int>)
    ensures |r| == |ts| && forall i :: 0 <= i < |ts| ==> r[i] == ts[i].row
  {
    seq(|ts|, i requires 0 <= i < |ts| => ts[i].row)
  }

  /** `Math.max(...xs)`; None is the `-Infinity` of an empty list. */
  function MaxOf(xs: seq<int>): (r: Option<int>)
    ensures r.None? <==> |xs| == 0
    ensures r.Some? ==> (exists k :: 0 <= k < |xs| && xs[k] == r.value)
    ensures r.Some? ==> forall k :: 0 <= k < |xs| ==> xs[k] <= r.value
  {
    if |xs| == 0 then None
    else
      match MaxOf(xs[..|xs| - 1])
      case None => Some(xs[|xs| - 1])
      case Some(m) => Some(Max(m, xs[|xs| - 1]))
  }

  /** The filter condition: strictly before the last two columns and rows. */
  predicate Inner(t: Territory, maxCol: int, maxRow: int)
  {
    t.col < maxCol - 1 && t.row < maxRow - 1
  }

  /** `territories.filter(...)` with the given maxima, in the original order. */
  function Keep(ts: seq<Territory>, maxCol: int, maxRow: int): (r: seq<Territory>)
    ensures |r| <= |ts|
  {
    KeepUpTo(ts, maxCol, maxRow, |ts|)
  }

  /** The filter over the first `n` territories. */
  function KeepUpTo(ts: seq<Territory>, maxCol: int, maxRow: int, n: nat): (r: seq<Territory>)
    requires n <= |ts|
    ensures |r| <= n
  {
    if n == 0 then []
    else KeepUpTo(ts, maxCol, maxRow, n - 1) + (if Inner(ts[n - 1], maxCol, maxRow) then [ts[n - 1]] else [])
  }

  /** The `forEach` that sets each territory's id to its index. */
  function Renumber(ts: seq<Territory>): (r: seq<Territory>)
    ensures |r| == |ts| && IdsAreIndices(r)
    ensures forall i :: 0 <= i < |ts| ==> r[i] == ts[i].(id := i)
  {
    seq(|ts|, i requires 0 <= i < |ts| => ts[i].(id := i))
  }

  /**
   * The board after `removeOuterTerritories`: the territories strictly inside
   * the last two columns and rows, in their original order, renumbered
   * 0..n-1. An empty board stays empty.
   */
  function Trimmed(ts: seq<Territory>): (r: seq<Territory>)
    ensures |r| <= |ts| && IdsAreIndices(r)
  {
    match (MaxOf(Cols(ts)), MaxOf(Rows(ts)))
    case (Some(maxCol), Some(maxRow)) => Renumber(Keep(ts, maxCol, maxRow))
    case _ => []
  }

  /** Cells appended after the first `n` do not change the filter over them. */
  lemma {:induction false} KeepUpToPrefix(a: seq<Territory>, b: seq<Territory>, maxCol: int, maxRow: int, n: nat)
    requires n <= |a|
    ensures KeepUpTo(a + b, maxCol, maxRow, n) == KeepUpTo(a, maxCol, maxRow, n)
  {
    if n > 0 {
      KeepUpToPrefix(a, b, maxCol, maxRow, n - 1);
      assert (a + b)[n - 1] == a[n - 1];
    }
  }

  lemma {:induction false} KeepAppendUpTo(a: seq<Territory>, b: seq<Territory>, maxCol: int, maxRow: int, k: nat)
    requires k <= |b|
    ensures KeepUpTo(a + b, maxCol, maxRow, |a| + k) == Keep(a, maxCol, maxRow) + KeepUpTo(b, maxCol, maxRow, k)
  {
    if k == 0 {
      KeepUpToPrefix(a, b, maxCol, maxRow, |a|);
    } else {
      KeepAppendUpTo(a, b, maxCol, maxRow, k - 1);
      assert (a + b)[|a| + k - 1] == b[k - 1];
      var tail := if Inner(b[k - 1], maxCol, maxRow) then [b[k - 1]] else [];
      assert KeepUpTo(b, maxCol, maxRow, k) == KeepUpTo(b, maxCol, maxRow, k - 1) + tail;
      assert Keep(a, maxCol, maxRow) + KeepUpTo(b, maxCol, maxRow, k - 1) + tail
        == Keep(a, maxCol, maxRow) + (KeepUpTo(b, maxCol, maxRow, k - 1) + tail);
    }
  }

  /** The filter distributes over concatenation, so it keeps the relative order. */
  lemma KeepAppend(a: seq<Territory>, b: seq<Territory>, maxCol: int, maxRow: int)
    ensures Keep(a + b, maxCol, maxRow) == Keep(a, maxCol, maxRow) + Keep(b, maxCol, maxRow)
  {
    KeepAppendUpTo(a, b, maxCol, maxRow, |b|);
  }

  lemma {:induction false} KeepUpToMembers(ts: seq<Territory>, maxCol: int, maxRow: int, n: nat)
    requires n <= |ts|
    ensures forall t :: t in KeepUpTo(ts, maxCol, maxRow, n) <==> t in ts[..n] && Inner(t, maxCol, maxRow)
  {
    if n > 0 {
      KeepUpToMembers(ts, maxCol, maxRow, n - 1);
      assert ts[..n] == ts[..n - 1] + [ts[n - 1]];
    }
  }

  /** The filter keeps exactly the inner territories. */
  lemma KeepMembers(ts: seq<Territory>, maxCol: int, maxRow: int)
    ensures forall t :: t in Keep(ts, maxCol, maxRow) <==> t in ts && Inner(t, maxCol, maxRow)
  {
    KeepUpToMembers(ts, maxCol, maxRow, |ts|);
    assert ts[..|ts|] == ts;
  }

  /** What is left of a dimension once its last two lines go: `n - 2`, and none of a shorter one. */
  function Inset(n: nat): nat
  {
    if n >= 2 then n - 2 else 0
  }

  /**
   * The filter on the first `k` cells of a column-shaped list (cell r in column
   * c and row r): all of them up to row `maxRow - 2` when c is an inner column,
   * none otherwise.
   */
  lemma {:induction false} KeepPrefix(cells: seq<Territory>, c: int, maxCol: int, maxRow: int, k: nat)
    requires k <= |cells|
    requires forall r :: 0 <= r < |cells| ==> cells[r].col == c && cells[r].row == r
    ensures var lim := Max(0, maxRow - 1);
      KeepUpTo(cells, maxCol, maxRow, k) == if c < maxCol - 1 then cells[..if k <= lim then k else lim] else []
  {
    if k > 0 {
      KeepPrefix(cells, c, maxCol, maxRow, k - 1);
      assert cells[..k] == cells[..k - 1] + [cells[k - 1]];
    }
  }

  /** The filter keeps the first `rows - 2` cells of an inner column of the full grid and nothing of an outer one. */
  lemma KeepColumn(base: int, c: nat, rows: nat, maxCol: int)
    ensures var column := Column(base, c, rows);
      Keep(column, maxCol, rows - 1) == if c < maxCol - 1 then column[..Inset(rows)] else []
  {
    var column := Column(base, c, rows);
    KeepPrefix(column, c, maxCol, rows - 1, rows);
    assert column[..rows] == column;
    assert Keep(column, maxCol, rows - 1) == KeepUpTo(column, maxCol, rows - 1, rows);
  }

  /** The inner cells of the first `c` columns, with their original ids. */
  function InnerGrid(c: nat, rows: nat): (r: seq<Territory>)
  {
    if c == 0 then [] else InnerGrid(c - 1, rows) + Column(|FullGrid(c - 1, rows)|, c - 1, rows)[..Inset(rows)]
  }

  /** Filtering the first `c` columns, all of them inner columns of a `cols` by `rows` grid. */
  lemma {:induction false} KeepInnerColumns(c: nat, cols: nat, rows: nat)
    requires c + 2 <= cols
    ensures Keep(FullGrid(c, rows), cols - 1, rows - 1) == InnerGrid(c, rows)
  {
    if c == 0 {
      assert FullGrid(0, rows) == [];
    } else {
      var prev := FullGrid(c - 1, rows);
      KeepInnerColumns(c - 1, cols, rows);
      KeepInnerColumn(prev, InnerGrid(c - 1, rows), c - 1, cols, rows);
    }
  }

  /** Appending an inner column adds its first `rows - 2` cells to what the filter keeps. */
  lemma KeepInnerColumn(prev: seq<Territory>, kept: seq<Territory>, c: nat, cols: nat, rows: nat)
    requires c + 2 < cols && Keep(prev, cols - 1, rows - 1) == kept
    ensures var column := Column(|prev|, c, rows);
      Keep(prev + column, cols - 1, rows - 1) == kept + column[..Inset(rows)]
  {
    KeepAppend(prev, Column(|prev|, c, rows), cols - 1, rows - 1);
    KeepColumn(|prev|, c, rows, cols - 1);
  }

  /** Filtering the whole `cols` by `rows` grid leaves the inner cells of its first `cols - 2` columns. */
  lemma KeepFullGrid(cols: nat, rows: nat)
    requires cols >= 1
    ensures Keep(FullGrid(cols, rows), cols - 1, rows - 1) == InnerGrid(Inset(cols), rows)
  {
    KeepDropColumn(cols - 1, cols, rows);
    if cols == 1 {
      assert FullGrid(0, rows) == [];
    } else {
      KeepDropColumn(cols - 2, cols, rows);
      KeepInnerColumns(cols - 2, cols, rows);
    }
  }

  /** Column `c`, one of the last two, adds nothing to what the filter keeps. */
  lemma KeepDropColumn(c: nat, cols: nat, rows: nat)
    requires c + 2 >= cols
    ensures Keep(FullGrid(c + 1, rows), cols - 1, rows - 1) == Keep(FullGrid(c, rows), cols - 1, rows - 1)
  {
    var prev := FullGrid(c, rows);
    KeepColumn(|prev|, c, rows, cols - 1);
    KeepSkip(prev, Column(|prev|, c, rows), cols - 1, rows - 1);
  }

  /** Appending cells the filter drops does not change what it keeps. */
  lemma KeepSkip(a: seq<Territory>, b: seq<Territory>, maxCol: int, maxRow: int)
    requires Keep(b, maxCol, maxRow) == []
    ensures Keep(a + b, maxCol, maxRow) == Keep(a, maxCol, maxRow)
  {
    KeepAppend(a, b, maxCol, maxRow);
    assert Keep(a, maxCol, maxRow) + [] == Keep(a, maxCol, maxRow);
  }

  /** A territory with its id blanked out: what the renumbering does not look at. */
  function Anon(ts: seq<Territory>): (r: seq<Territory>)
    ensures |r| == |ts| && forall i :: 0 <= i < |ts| ==> r[i] == ts[i].(id := 0)
  {
    seq(|ts|, i requires 0 <= i < |ts| => ts[i].(id := 0))
  }

  lemma AnonAppend(a: seq<Territory>, b: seq<Territory>)
    ensures Anon(a + b) == Anon(a) + Anon(b)
  {
    assert forall i :: 0 <= i < |a + b| ==> Anon(a + b)[i] == (Anon(a) + Anon(b))[i];
  }

  /** Up to ids, the inner cells of `c` columns are the full grid with `rows - 2` rows. */
  lemma {:induction false} InnerGridShape(c: nat, rows: nat)
    ensures Anon(InnerGrid(c, rows)) == Anon(FullGrid(c, Inset(rows)))
  {
    if c > 0 {
      InnerGridShape(c - 1, rows);
      var kept := Column(|FullGrid(c - 1, rows)|, c - 1, rows)[..Inset(rows)];
      var small := Column(|FullGrid(c - 1, Inset(rows))|, c - 1, Inset(rows));
      AnonAppend(InnerGrid(c - 1, rows), kept);
      AnonAppend(FullGrid(c - 1, Inset(rows)), small);
      assert Anon(kept) == Anon(small);
    }
  }

  /** Renumbering only looks at what Anon keeps. */
  lemma RenumberAnon(a: seq<Territory>, b: seq<Territory>)
    requires Anon(a) == Anon(b)
    ensures Renumber(a) == Renumber(b)
  {
    forall i | 0 <= i < |a|
      ensures Renumber(a)[i] == Renumber(b)[i]
    {
      assert Anon(a)[i] == Anon(b)[i];
    }
  }

  lemma RenumberIdentity(ts: seq<Territory>)
    requires IdsAreIndices(ts)
    ensures Renumber(ts) == ts
  {
  }

  /**
   * On the full grid the maxima are the last column and the last row, so
   * trimming filters with those.
   */
  lemma FullGridMaxima(cols: nat, rows: nat)
    requires cols > 0 && rows > 0
    ensures MaxOf(Cols(FullGrid(cols, rows))) == Some(cols - 1)
    ensures MaxOf(Rows(FullGrid(cols, rows))) == Some(rows - 1)
    ensures Trimmed(FullGrid(cols, rows)) == Renumber(Keep(FullGrid(cols, rows), cols - 1, rows - 1))
  {
    FullGridBounds(cols, rows);
    var last := LastCell(cols, rows);
    MaxCorner(FullGrid(cols, rows), cols, rows, last);
  }

  /** A cell no other cell passes in column or row gives both maxima. */
  lemma MaxCorner(ts: seq<Territory>, cols: int, rows: int, k: nat)
    requires k < |ts| && ts[k].col == cols - 1 && ts[k].row == rows - 1
    requires forall j :: 0 <= j < |ts| ==> ts[j].col < cols && ts[j].row < rows
    ensures MaxOf(Cols(ts)) == Some(cols - 1) && MaxOf(Rows(ts)) == Some(rows - 1)
    ensures Trimmed(ts) == Renumber(Keep(ts, cols - 1, rows - 1))
  {
    MaxOfIs(Cols(ts), k);
    MaxOfIs(Rows(ts), k);
  }

  /** The last cell of a non-empty full grid sits in the last column and row. */
  lemma LastCell(cols: nat, rows: nat) returns (last: nat)
    requires cols > 0 && rows > 0
    ensures last < |FullGrid(cols, rows)|
    ensures FullGrid(cols, rows)[last].col == cols - 1 && FullGrid(cols, rows)[last].row == rows - 1
  {
    FullGridCell(cols, rows, cols - 1, rows - 1);
    last := (cols - 1) * rows + (rows - 1);
  }

  /** An element no other element exceeds is the maximum. */
  lemma MaxOfIs(xs: seq<int>, k: nat)
    requires k < |xs| && forall j :: 0 <= j < |xs| ==> xs[j] <= xs[k]
    ensures MaxOf(xs) == Some(xs[k])
  {
  }

  /** Trimming an inner grid keeps exactly its first `cols - 2` columns and `rows - 2` rows. */
  lemma TrimNonEmptyGrid(cols: nat, rows: nat)
    requires cols > 0 && rows > 0
    ensures Trimmed(FullGrid(cols, rows)) == FullGrid(Inset(cols), Inset(rows))
  {
    FullGridMaxima(cols, rows);
    KeepFullGrid(cols, rows);
    InnerGridRenumbered(Inset(cols), rows);
  }

  /** Renumbering the inner cells of `c` columns gives the full grid of `c` columns and `rows - 2` rows. */
  lemma InnerGridRenumbered(c: nat, rows: nat)
    ensures Renumber(InnerGrid(c, rows)) == FullGrid(c, Inset(rows))
  {
    InnerGridShape(c, rows);
    FullGridIds(c, Inset(rows));
    RenumberAnon(InnerGrid(c, rows), FullGrid(c, Inset(rows)));
    RenumberIdentity(FullGrid(c, Inset(rows)));
  }

  /** Every cell of the full grid carries its position as id. */
  lemma {:induction false} FullGridIds(cols: nat, rows: nat)
    ensures IdsAreIndices(FullGrid(cols, rows))
  {
    if cols > 0 {
      var prev := FullGrid(cols - 1, rows);
      FullGridIds(cols - 1, rows);
      forall i | |prev| <= i < |FullGrid(cols, rows)|
        ensures FullGrid(cols, rows)[i].id == i
      {
        assert FullGrid(cols, rows)[i] == Column(|prev|, cols - 1, rows)[i - |prev|];
      }
    }
  }

  /**
   * Trimming the full `cols` by `rows` grid leaves exactly the full grid with
   * two fewer columns and rows (none when either dimension is below 2),
   * renumbered in the same column-major order: `(cols-2) * (rows-2)` cells.
   */
  lemma TrimFullGrid(cols: nat, rows: nat)
    ensures Trimmed(FullGrid(cols, rows)) == FullGrid(Inset(cols), Inset(rows))
    ensures cols >= 2 && rows >= 2 ==> |Trimmed(FullGrid(cols, rows))| == (cols - 2) * (rows - 2)
  {
    var cs := Inset(cols);
    FullGridSize(cols, rows);
    FullGridSize(cs, Inset(rows));
    if cols == 0 || rows == 0 {
      assert MaxOf(Cols(FullGrid(cols, rows))) == None;
    } else {
      TrimNonEmptyGrid(cols, rows);
    }
  }
}
