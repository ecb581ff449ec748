/**
  What the dissimilarity-matrix picture promises: lower-triangular lookups that do not depend
  on the order of the pair, one cell and its mirror per pair of rows at a computable position,
  captions aligned on the grid, and a square canvas large enough for the grid.
*/
module MatrixProperties {
  import opened Options
  import opened Dendrogram
  import opened DissimilarityMatrix

  /** `max(labellen)` is at least every width and is one of them. */
  lemma {:induction false} LargestIsMaximum(widths: seq<real>)
    requires widths != []
    ensures forall k :: 0 <= k < |widths| ==> widths[k] <= Largest(widths)
    ensures Largest(widths) in widths
  {
    if |widths| > 1 {
      var init := widths[..|widths| - 1];
      LargestIsMaximum(init);
      assert forall k :: 0 <= k < |init| ==> widths[k] == init[k];
    }
  }

  // ----- lower-triangular storage -----

  /** The pair's dissimilarity does not depend on which of the two labels comes first. */
  lemma LookupSymmetric(diss: seq<seq<real>>, a: nat, b: nat)
    ensures LookupDefined(diss, a, b) <==> LookupDefined(diss, b, a)
    ensures LookupDefined(diss, a, b) ==> Lookup(diss, a, b) == Lookup(diss, b, a)
  {
  }

  /** Row `k` of a lower-triangular matrix of `L` labels holds the `k + 1` values against labels `0..k`. */
  predicate Triangular(diss: seq<seq<real>>, L: nat)
  {
    |diss| >= L - 1 && forall k :: 0 <= k < L - 1 ==> |diss[k]| > k
  }

  /**
    In a lower-triangular matrix two different labels are always found, with no negative
    index: the value is `diss[max - 1][min]`.
  */
  lemma TriangularLookup(diss: seq<seq<real>>, L: nat, a: nat, b: nat)
    requires Triangular(diss, L) && a < L && b < L && a != b
    ensures LookupDefined(diss, a, b)
    ensures 0 <= Larger(a, b) - 1 < |diss| && Lookup(diss, a, b) == diss[Larger(a, b) - 1][Smaller(a, b)]
  {
    assert Smaller(a, b) <= Larger(a, b) - 1 < L - 1;
  }

  /**
    A lower-triangular matrix and rows that show distinct labels cover every pair the picture
    reads.
  */
  lemma TriangularCovers(a: MatrixArgs)
    requires |a.labelWidths| <= |a.order| && Triangular(a.diss, |a.labelWidths|)
    requires forall i :: 0 <= i < |a.labelWidths| ==> 1 <= a.order[i] <= |a.labelWidths|
    requires forall i, j :: 0 <= j < i < |a.labelWidths| ==> a.order[i] != a.order[j]
    ensures forall i, j :: 0 <= j < i < |a.labelWidths| ==> PairDefined(a, i, j)
  {
    forall i, j | 0 <= j < i < |a.labelWidths|
      ensures PairDefined(a, i, j)
    {
      TriangularLookup(a.diss, |a.labelWidths|, a.order[i] - 1, a.order[j] - 1);
    }
  }

  // ----- cells -----

  function Gains(a: MatrixArgs): nat
  {
    if |a.attColors| > 0 then 1 else 0
  }

  /** Where row `i`'s cells start: `i - 1` pairs and a diagonal cell for every earlier row. */
  function RowStart(a: MatrixArgs, i: nat): nat
  {
    i * (i - 1) + i * Gains(a)
  }

  /** `k` rows draw `k * (k - 1)` pair cells (each pair twice) and `k` diagonal cells when gains are given. */
  lemma {:induction false} CellCount(a: CoveredArgs, g: Geometry, k: nat)
    requires k <= |a.labelWidths|
    ensures |CellsUpTo(a, g, k)| == RowStart(a, k)
  {
    if k > 0 {
      CellCount(a, g, k - 1);
      assert |CellsUpTo(a, g, k)| == |CellsUpTo(a, g, k - 1)| + 2 * (k - 1) + Gains(a) by {
        assert CellsUpTo(a, g, k) == CellsUpTo(a, g, k - 1) + RowCells(a, g, k - 1);
      }
      assert RowStart(a, k) == RowStart(a, k - 1) + 2 * (k - 1) + Gains(a) by {
        assert k * (k - 1) == (k - 1) * (k - 2) + 2 * (k - 1);
        assert k * Gains(a) == (k - 1) * Gains(a) + Gains(a);
      }
    }
  }

  /** Drawing more rows only appends: the cells of the first `k` rows start those of the first `k'`. */
  lemma {:induction false} CellsPrefix(a: CoveredArgs, g: Geometry, k: nat, k': nat)
    requires k <= k' <= |a.labelWidths|
    ensures CellsUpTo(a, g, k) <= CellsUpTo(a, g, k')
  {
    if k < k' {
      CellsPrefix(a, g, k, k' - 1);
    }
  }

  /** An index past `before` in a sequence starting with `before + row` reads `row`. */
  lemma IndexPastPrefix(before: seq<Cell>, row: seq<Cell>, all: seq<Cell>, t: nat)
    requires before + row <= all && t < |row|
    ensures |before| + t < |all| && all[|before| + t] == row[t]
  {
    assert (before + row)[|before| + t] == row[t];
  }

  /** Row `i`'s own cells follow the cells of the rows before it in the finished picture. */
  lemma RowCellsAt(a: CoveredArgs, g: Geometry, i: nat, t: nat)
    requires i < |a.labelWidths| && t < |RowCells(a, g, i)|
    ensures |CellsUpTo(a, g, i)| + t < |CellsUpTo(a, g, |a.labelWidths|)|
    ensures CellsUpTo(a, g, |a.labelWidths|)[|CellsUpTo(a, g, i)| + t] == RowCells(a, g, i)[t]
  {
    var before, row, all := CellsUpTo(a, g, i), RowCells(a, g, i), CellsUpTo(a, g, |a.labelWidths|);
    assert before + row <= all by {
      CellsPrefix(a, g, i + 1, |a.labelWidths|);
    }
    IndexPastPrefix(before, row, all, t);
  }

  /**
    For rows `j` < `i`, the cell at index `RowStart(i) + 2j` is the pair's cell below the
    diagonal and the next one its mirror.
  */
  lemma CellIndex(a: CoveredArgs, g: Geometry, i: nat, j: nat)
    requires j < i < |a.labelWidths|
    ensures var cells := CellsUpTo(a, g, |a.labelWidths|);
      && RowStart(a, i) + 2 * j + 1 < |cells|
      && cells[RowStart(a, i) + 2 * j] == PairCell(a, g, i, j, false)
      && cells[RowStart(a, i) + 2 * j + 1] == PairCell(a, g, i, j, true)
  {
    CellCount(a, g, i);
    PairCellsAt(a, g, i, i, j);
    RowCellsAt(a, g, i, 2 * j);
    RowCellsAt(a, g, i, 2 * j + 1);
  }

  /** With gains, the diagonal cell of row `i` is at index `RowStart(i) + 2i`. */
  lemma DiagonalIndex(a: CoveredArgs, g: Geometry, i: nat)
    requires i < |a.labelWidths| && |a.attColors| > 0
    ensures var cells := CellsUpTo(a, g, |a.labelWidths|);
      && RowStart(a, i) + 2 * i < |cells|
      && cells[RowStart(a, i) + 2 * i]
        == Cell(CellPos(a, g, i), CellPos(a, g, i), Shade(MatrixScheme(a.colorMode), a.attColors[a.order[i] - 1]))
  {
    CellCount(a, g, i);
    RowCellsAt(a, g, i, 2 * i);
    assert RowCells(a, g, i)[2 * i] == DiagonalCell(a, g, i)[0];
  }

  // ----- division by zero -----

  /** Some cell is coloured 0 in black and white, the colouring that divides by its value. */
  predicate HasZero(cells: seq<Cell>)
  {
    exists t :: 0 <= t < |cells| && cells[t].color == Shade(BlackWhite, 0.0)
  }

  lemma HasZeroAppend(x: seq<Cell>, y: seq<Cell>)
    ensures HasZero(x + y) <==> HasZero(x) || HasZero(y)
  {
    if HasZero(x + y) {
      var t :| 0 <= t < |x + y| && (x + y)[t].color == Shade(BlackWhite, 0.0);
      if t < |x| {
        assert x[t] == (x + y)[t];
      } else {
        assert y[t - |x|] == (x + y)[t];
      }
    }
    if HasZero(x) {
      var t :| 0 <= t < |x| && x[t].color == Shade(BlackWhite, 0.0);
      assert (x + y)[t] == x[t];
    }
    if HasZero(y) {
      var t :| 0 <= t < |y| && y[t].color == Shade(BlackWhite, 0.0);
      assert (x + y)[|x| + t] == y[t];
    }
  }

  /** A cell and its mirror raise exactly when their shared colour is a black-and-white zero. */
  lemma PairHasZero(a: CoveredArgs, g: Geometry, i: nat, j: nat)
    requires j < i < |a.labelWidths|
    ensures HasZero([PairCell(a, g, i, j, false), PairCell(a, g, i, j, true)])
      <==> ColorRaises(MatrixScheme(a.colorMode), PairValue(a, i, j))
  {
    var pair := [PairCell(a, g, i, j, false), PairCell(a, g, i, j, true)];
    assert pair[0].color == pair[1].color == Shade(MatrixScheme(a.colorMode), PairValue(a, i, j));
  }

  lemma PairsRaiseStep(a: CoveredArgs, i: nat, j: nat)
    requires j < i < |a.labelWidths|
    ensures PairsRaise(a, i, j + 1) <==> PairsRaise(a, i, j) || ColorRaises(MatrixScheme(a.colorMode), PairValue(a, i, j))
  {
  }

  /** The pair cells of row `i` with the rows before `j` hold a black-and-white zero exactly when one of those pairs raises. */
  lemma {:induction false} PairsHaveZero(a: CoveredArgs, g: Geometry, i: nat, j: nat)
    requires j <= i < |a.labelWidths|
    ensures HasZero(PairCells(a, g, i, j)) <==> PairsRaise(a, i, j)
  {
    if j > 0 {
      PairsHaveZero(a, g, i, j - 1);
      HasZeroAppend(PairCells(a, g, i, j - 1), [PairCell(a, g, i, j - 1, false), PairCell(a, g, i, j - 1, true)]);
      PairHasZero(a, g, i, j - 1);
      PairsRaiseStep(a, i, j - 1);
    }
  }

  /** Row `i`'s cells hold a black-and-white zero exactly when row `i` raises. */
  lemma RowHasZero(a: CoveredArgs, g: Geometry, i: nat)
    requires i < |a.labelWidths|
    ensures HasZero(RowCells(a, g, i)) <==> RowRaises(a, i)
  {
    HasZeroAppend(PairCells(a, g, i, i), DiagonalCell(a, g, i));
    PairsHaveZero(a, g, i, i);
    if |a.attColors| > 0 {
      assert DiagonalCell(a, g, i)[0].color == Shade(MatrixScheme(a.colorMode), a.attColors[a.order[i] - 1]);
    }
  }

  lemma RaisesBeforeStep(a: CoveredArgs, k: nat)
    requires k < |a.labelWidths|
    ensures RaisesBefore(a, k + 1) <==> RaisesBefore(a, k) || RowRaises(a, k)
  {
  }

  /** The cells of the first `k` rows hold a black-and-white zero exactly when one of those rows raises. */
  lemma {:induction false} CellsHaveZero(a: CoveredArgs, g: Geometry, k: nat)
    requires k <= |a.labelWidths|
    ensures HasZero(CellsUpTo(a, g, k)) <==> RaisesBefore(a, k)
  {
    if k > 0 {
      CellsHaveZero(a, g, k - 1);
      HasZeroAppend(CellsUpTo(a, g, k - 1), RowCells(a, g, k - 1));
      RowHasZero(a, g, k - 1);
      RaisesBeforeStep(a, k - 1);
    }
  }

  /**
    `matrix` raises `ZeroDivisionError` exactly when the picture it would draw has a cell
    coloured 0 in black and white.
  */
  lemma RaisesIffZeroCell(a: CoveredArgs)
    requires |a.labelWidths| >= 2
    ensures MatrixOf(a) == MatrixOutcome.ZeroDivision <==> HasZero(PictureOf(a).value.cells)
  {
    CellsHaveZero(a, GeometryOf(a), |a.labelWidths|);
  }

  function Mirror(c: Cell): Cell
  {
    Cell(c.cy, c.cx, c.color)
  }

  /** The pair cell of predecessor `u` is at index `2u`, its mirror at `2u + 1`. */
  lemma {:induction false} PairCellsAt(a: CoveredArgs, g: Geometry, i: nat, j: nat, u: nat)
    requires u < j <= i < |a.labelWidths|
    ensures PairCells(a, g, i, j)[2 * u] == PairCell(a, g, i, u, false)
    ensures PairCells(a, g, i, j)[2 * u + 1] == PairCell(a, g, i, u, true)
  {
    if u < j - 1 {
      PairCellsAt(a, g, i, j - 1, u);
    }
  }

  /** The cells of one row are closed under mirroring: a pair cell and its mirror sit side by side. */
  lemma PairCellsMirrored(a: CoveredArgs, g: Geometry, i: nat)
    requires i < |a.labelWidths|
    ensures forall c :: c in PairCells(a, g, i, i) ==> Mirror(c) in PairCells(a, g, i, i)
  {
    var pairs := PairCells(a, g, i, i);
    forall c | c in pairs
      ensures Mirror(c) in pairs
    {
      var t :| 0 <= t < |pairs| && pairs[t] == c;
      var u := t / 2;
      PairCellsAt(a, g, i, i, u);
      if t == 2 * u {
        assert Mirror(c) == pairs[2 * u + 1];
      } else {
        assert t == 2 * u + 1;
        assert Mirror(c) == pairs[2 * u];
      }
    }
  }

  /** Every cell's mirror is in `cells` too. */
  predicate Symmetric(cells: seq<Cell>)
  {
    forall c :: c in cells ==> Mirror(c) in cells
  }

  lemma SymmetricAppend(first: seq<Cell>, second: seq<Cell>)
    requires Symmetric(first) && Symmetric(second)
    ensures Symmetric(first + second)
  {
  }

  /** Every cell's mirror image across the diagonal is also drawn, in the same colour. */
  lemma {:induction false} MirrorClosed(a: CoveredArgs, g: Geometry, k: nat)
    requires k <= |a.labelWidths|
    ensures Symmetric(CellsUpTo(a, g, k))
  {
    if k > 0 {
      var pairs, diagonal := PairCells(a, g, k - 1, k - 1), DiagonalCell(a, g, k - 1);
      assert Symmetric(pairs) by {
        PairCellsMirrored(a, g, k - 1);
      }
      assert Symmetric(diagonal) by {
        assert forall c :: c in diagonal ==> Mirror(c) == c;
      }
      MirrorClosed(a, g, k - 1);
      SymmetricAppend(pairs, diagonal);
      SymmetricAppend(CellsUpTo(a, g, k - 1), pairs + diagonal);
    }
  }

  // ----- geometry -----

  /** `x` is the centre of one of the `L` rows or columns. */
  predicate OnGrid(a: MatrixArgs, g: Geometry, x: real)
  {
    exists i: nat :: i < |a.labelWidths| && x == CellPos(a, g, i)
  }

  /** Every cell of `cells` is centred on the grid. */
  predicate AllOnGrid(a: MatrixArgs, g: Geometry, cells: seq<Cell>)
  {
    forall c :: c in cells ==> OnGrid(a, g, c.cx) && OnGrid(a, g, c.cy)
  }

  lemma AllOnGridAppend(a: MatrixArgs, g: Geometry, first: seq<Cell>, second: seq<Cell>)
    requires AllOnGrid(a, g, first) && AllOnGrid(a, g, second)
    ensures AllOnGrid(a, g, first + second)
  {
  }

  /** The pair cells of row `i` sit on the grid. */
  lemma PairCellsOnGrid(a: CoveredArgs, g: Geometry, i: nat)
    requires i < |a.labelWidths|
    ensures AllOnGrid(a, g, PairCells(a, g, i, i))
  {
    var pairs := PairCells(a, g, i, i);
    assert OnGrid(a, g, CellPos(a, g, i));
    forall c | c in pairs
      ensures OnGrid(a, g, c.cx) && OnGrid(a, g, c.cy)
    {
      var t :| 0 <= t < |pairs| && pairs[t] == c;
      var other: nat := t / 2;
      PairCellsAt(a, g, i, i, other);
      assert t == 2 * other || t == 2 * other + 1;
      assert OnGrid(a, g, CellPos(a, g, other));
    }
  }

  /** Every cell is centred on a row and a column of the grid. */
  lemma {:induction false} CellsOnGrid(a: CoveredArgs, g: Geometry, k: nat)
    requires k <= |a.labelWidths|
    ensures AllOnGrid(a, g, CellsUpTo(a, g, k))
  {
    if k > 0 {
      var pairs, diagonal := PairCells(a, g, k - 1, k - 1), DiagonalCell(a, g, k - 1);
      PairCellsOnGrid(a, g, k - 1);
      assert AllOnGrid(a, g, diagonal) by {
        assert OnGrid(a, g, CellPos(a, g, k - 1));
      }
      CellsOnGrid(a, g, k - 1);
      AllOnGridAppend(a, g, pairs, diagonal);
      AllOnGridAppend(a, g, CellsUpTo(a, g, k - 1), pairs + diagonal);
    }
  }

  /** The centres of the grid run from one row spacing past its corner to `L` spacings past it. */
  lemma RowBounds(a: MatrixArgs, g: Geometry, i: nat)
    requires g.lineskip >= 1 && i < |a.labelWidths|
    ensures g.offset + a.hook + g.lineskip as real <= CellPos(a, g, i) <= g.offset + a.hook + (g.lineskip * |a.labelWidths|) as real
  {
    assert g.lineskip * (i + 1) <= g.lineskip * |a.labelWidths|;
    assert g.lineskip <= g.lineskip * (i + 1);
  }

  /** Python's `int()` loses less than 1. */
  lemma TruncAboveLess(x: real)
    ensures x - 1.0 < Trunc(x) as real
  {
  }

  /** The arithmetic of the side: the far edge of the last cell is at least 1 short of the extent. */
  lemma SideArithmetic(ls: int, L: nat, margin: real, hook: real, maxLabel: real, fontHeight: real, block: real)
    requires ls >= 1 && block == (ls / 2 - 1) as real && margin >= 0.0 && fontHeight >= 0.0
    ensures maxLabel + margin + hook + (ls * L) as real + block
      <= 1.0 + 2.0 * margin + hook + maxLabel + Max(ls as real * (0.5 + L as real) + fontHeight, 2.0 * maxLabel) - 1.0
  {
    assert 2 * (ls / 2) <= ls;
    assert (ls * L) as real == ls as real * L as real;
    assert ls as real * (0.5 + L as real) == ls as real * L as real + 0.5 * ls as real;
  }

  /** The side bound on plain numbers: `side` is the truncated extent. */
  lemma SideBound(ls: int, L: nat, margin: real, hook: real, maxLabel: real, fontHeight: real, block: real, side: int)
    requires ls >= 1 && block == (ls / 2 - 1) as real && margin >= 0.0 && fontHeight >= 0.0
    requires side == Side(ls, L, margin, hook, maxLabel, fontHeight)
    ensures maxLabel + margin + hook + (ls * L) as real + block <= side as real
    ensures block <= ls as real
  {
    TruncAboveLess(1.0 + 2.0 * margin + hook + maxLabel + Max(ls as real * (0.5 + L as real) + fontHeight, 2.0 * maxLabel));
    SideArithmetic(ls, L, margin, hook, maxLabel, fontHeight, block);
  }

  /**
    With the default cell size, non-negative margin and font height, the square side reaches
    past the last cell, and a cell is no wider than a row.
  */
  lemma SideCoversGrid(a: MatrixArgs, g: Geometry)
    requires |a.labelWidths| >= 2 && g == GeometryOf(a)
    requires a.block.None? && a.margin >= 0.0 && a.fontHeight >= 0.0 && a.lineSize * a.fontHeight >= 0.0
    ensures g.offset + a.hook + (g.lineskip * |a.labelWidths|) as real + g.block <= g.side as real
    ensures g.lineskip >= 1 && g.block <= g.lineskip as real
  {
    var L := |a.labelWidths|;
    var ls := Trunc(a.lineSize * a.fontHeight + 1.0);
    assert g.lineskip == ls && g.block == (ls / 2 - 1) as real && g.offset == g.maxLabel + a.margin;
    assert g.side == Side(ls, L, a.margin, a.hook, g.maxLabel, a.fontHeight);
    assert ls >= 1;
    SideBound(ls, L, a.margin, a.hook, g.maxLabel, a.fontHeight, g.block, g.side);
  }

  /**
    With the default cell size, non-negative margin, hook and font height, every cell of the
    picture lies right of and below the captions' band and inside the square canvas.
  */
  lemma CellsInsideCanvas(a: CoveredArgs, g: Geometry)
    requires |a.labelWidths| >= 2 && g == GeometryOf(a)
    requires a.block.None? && a.margin >= 0.0 && a.hook >= 0.0 && a.fontHeight >= 0.0 && a.lineSize * a.fontHeight >= 0.0
    ensures forall c :: c in CellsUpTo(a, g, |a.labelWidths|) ==>
      && g.offset + a.hook <= c.cx - g.block && c.cx + g.block <= g.side as real
      && g.offset + a.hook <= c.cy - g.block && c.cy + g.block <= g.side as real
  {
    var L := |a.labelWidths|;
    CellsOnGrid(a, g, L);
    SideCoversGrid(a, g);
    forall x | OnGrid(a, g, x)
      ensures g.offset + a.hook <= x - g.block && x + g.block <= g.side as real
    {
      var i: nat :| i < L && x == CellPos(a, g, i);
      RowBounds(a, g, i);
    }
  }

  // ----- captions -----

  lemma {:induction false} CaptionsAt(a: CoveredArgs, g: Geometry, k: nat, i: nat)
    requires i < k <= |a.labelWidths|
    ensures CaptionsUpTo(a, g, k)[2 * i] == RowCaption(a, g, i, false)
    ensures CaptionsUpTo(a, g, k)[2 * i + 1] == RowCaption(a, g, i, true)
  {
    if i < k - 1 {
      CaptionsAt(a, g, k - 1, i);
    }
  }

  /**
    Row `i` draws its label twice: the row caption ends `lineskip / 2` right of the grid
    offset, and the column caption stands where the row caption's row is.
  */
  lemma CaptionsAligned(a: CoveredArgs, g: Geometry, i: nat)
    requires i < |a.labelWidths|
    ensures var captions := CaptionsUpTo(a, g, |a.labelWidths|);
      var row, column := captions[2 * i], captions[2 * i + 1];
      && row.labelIndex == column.labelIndex == a.order[i] - 1
      && !row.rotated && column.rotated
      && row.x + a.labelWidths[row.labelIndex] == g.offset + (g.lineskip / 2) as real
      && column.x == row.y && column.y == g.offset + (g.lineskip / 2) as real
  {
    CaptionsAt(a, g, |a.labelWidths|, i);
  }
}
