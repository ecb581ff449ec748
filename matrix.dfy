/**
  The dissimilarity-matrix picture of `DendrogramPlot.matrix` (orange/orngDendrogram.py): one
  caption per row and per column, and for each pair of displayed rows a square cell coloured
  by their dissimilarity, drawn once below and once above the diagonal.
*/
module DissimilarityMatrix {
  import opened Options
  import opened Dendrogram

  function Larger(a: int, b: int): (r: int)
    ensures r >= a && r >= b && (r == a || r == b)
  {
    if a >= b then a else b
  }

  function Smaller(a: int, b: int): (r: int)
    ensures r <= a && r <= b && (r == a || r == b)
  {
    if a <= b then a else b
  }

  /** `color_mode` of `matrix`: 1 and 0 pick the two colour schemes, anything else black and white. */
  function MatrixScheme(colorMode: int): (s: Scheme)
    ensures s == Gregor <==> colorMode == 1
    ensures s == Aleks <==> colorMode == 0
    ensures s == BlackWhite <==> colorMode != 0 && colorMode != 1
  {
    if colorMode == 1 then Gregor else if colorMode == 0 then Aleks else BlackWhite
  }

  /**
    The arguments of `matrix`, with the font metrics as numbers: the label widths stand for the
    labels, `order[i]` is the 1-based label shown in row `i`, `diss` the dissimilarities in
    lower-triangular rows, and `block` the optional half-size of a cell.
  */
  datatype MatrixArgs = MatrixArgs(
    order: seq<int>,
    labelWidths: seq<real>,
    diss: seq<seq<real>>,
    margin: real,
    hook: real,
    block: Option<real>,
    lineSize: real,
    fontHeight: real,
    attColors: seq<real>,
    colorMode: int)

  /** Row `r` of `diss` as Python indexes it: a negative index counts from the end. */
  function DissRow(diss: seq<seq<real>>, r: int): seq<real>
    requires -|diss| <= r < |diss|
  {
    if r < 0 then diss[|diss| + r] else diss[r]
  }

  predicate LookupDefined(diss: seq<seq<real>>, a: nat, b: nat)
  {
    var r := Larger(a, b) - 1;
    -|diss| <= r < |diss| && Smaller(a, b) < |DissRow(diss, r)|
  }

  /** The dissimilarity of labels `a` and `b` (0-based): `diss[max(a, b) - 1][min(a, b)]`. */
  function Lookup(diss: seq<seq<real>>, a: nat, b: nat): real
    requires LookupDefined(diss, a, b)
  {
    DissRow(diss, Larger(a, b) - 1)[Smaller(a, b)]
  }

  /** The widest label, `max(labellen)` over a non-empty list. */
  function Largest(widths: seq<real>): (r: real)
    requires widths != []
  {
    if |widths| == 1 then widths[0] else Max(Largest(widths[..|widths| - 1]), widths[|widths| - 1])
  }

  /** The dissimilarity of the labels shown in rows `i` and `j` can be read. */
  predicate PairDefined(a: MatrixArgs, i: nat, j: nat)
    requires i < |a.order| && j < |a.order|
  {
    a.order[i] >= 1 && a.order[j] >= 1 && LookupDefined(a.diss, a.order[i] - 1, a.order[j] - 1)
  }

  /**
    What the picture indexes: every row shows a label, every pair of rows has a dissimilarity,
    and when gains are given there is one for every shown label.
  */
  predicate Covered(a: MatrixArgs)
  {
    var L := |a.labelWidths|;
    && L <= |a.order|
    && (forall i :: 0 <= i < L ==> 1 <= a.order[i] <= L)
    && (forall i, j :: 0 <= j < i < L ==> PairDefined(a, i, j))
    && (|a.attColors| > 0 ==> forall i :: 0 <= i < L ==> a.order[i] <= |a.attColors|)
  }

  /** Arguments whose every index the picture reads is in range. */
  type CoveredArgs = a: MatrixArgs | Covered(a) witness MatrixArgs([], [], [], 0.0, 0.0, None, 0.0, 0.0, [], 0)

  /** The dimensions: integer row spacing, widest label, square side, cell half-size, and the offset of the grid. */
  datatype Geometry = Geometry(lineskip: int, maxLabel: real, side: int, block: real, offset: real)

  /** The side of the square canvas: margins, hook and label, then the rows or the rotated labels. */
  function Side(lineskip: int, rows: nat, margin: real, hook: real, maxLabel: real, fontHeight: real): int
  {
    Trunc(1.0 + 2.0 * margin + hook + maxLabel
      + Max(lineskip as real * (0.5 + rows as real) + fontHeight, 2.0 * maxLabel))
  }

  function GeometryOf(a: MatrixArgs): Geometry
    requires |a.labelWidths| >= 2
  {
    var lineskip := Trunc(a.lineSize * a.fontHeight + 1.0);
    var maxLabel := Largest(a.labelWidths);
    var side := Side(lineskip, |a.labelWidths|, a.margin, a.hook, maxLabel, a.fontHeight);
    var block := if a.block.Some? then a.block.value else (lineskip / 2 - 1) as real;
    Geometry(lineskip, maxLabel, side, block, maxLabel + a.margin)
  }

  /** The centre of row or column `i` of the grid. */
  function CellPos(a: MatrixArgs, g: Geometry, i: nat): real
  {
    g.offset + a.hook + (g.lineskip * (i + 1)) as real
  }

  /** A label drawn at (`x`, `y`), `rotated` for the column captions. */
  datatype Caption = Caption(labelIndex: nat, x: real, y: real, rotated: bool)

  /** A square of half-size `block` centred at (`cx`, `cy`). */
  datatype Cell = Cell(cx: real, cy: real, color: Color)

  /** The picture: its geometry, the captions and the cells in the order they are drawn. */
  datatype Picture = Picture(geometry: Geometry, captions: seq<Caption>, cells: seq<Cell>)

  /** The row caption (`rotated` false) or column caption of row `i`. */
  function RowCaption(a: CoveredArgs, g: Geometry, i: nat, rotated: bool): Caption
    requires i < |a.labelWidths|
  {
    var idx := a.order[i] - 1;
    var along := g.offset + (g.lineskip * (i + 1)) as real + g.block;
    var half := (g.lineskip / 2) as real;
    if rotated then Caption(idx, along, g.offset + half, true)
    else Caption(idx, g.offset - a.labelWidths[idx] + half, along, false)
  }

  /** The captions of the first `k` rows: row caption, then column caption, row by row. */
  function CaptionsUpTo(a: CoveredArgs, g: Geometry, k: nat): (r: seq<Caption>)
    requires k <= |a.labelWidths|
    ensures |r| == 2 * k
  {
    if k == 0 then [] else CaptionsUpTo(a, g, k - 1) + [RowCaption(a, g, k - 1, false), RowCaption(a, g, k - 1, true)]
  }

  /** The value coloured for the cell of rows `i` > `j`: the dissimilarity of their labels. */
  function PairValue(a: CoveredArgs, i: nat, j: nat): real
    requires j < i < |a.labelWidths|
  {
    assert PairDefined(a, i, j);
    Lookup(a.diss, a.order[i] - 1, a.order[j] - 1)
  }

  /** The cell of rows `i` > `j`, or its mirror above the diagonal. */
  function PairCell(a: CoveredArgs, g: Geometry, i: nat, j: nat, mirrored: bool): Cell
    requires j < i < |a.labelWidths|
  {
    var color := Shade(MatrixScheme(a.colorMode), PairValue(a, i, j));
    if mirrored then Cell(CellPos(a, g, j), CellPos(a, g, i), color)
    else Cell(CellPos(a, g, i), CellPos(a, g, j), color)
  }

  /** The cells of row `i` against its first `j` predecessors, each followed by its mirror. */
  function PairCells(a: CoveredArgs, g: Geometry, i: nat, j: nat): (r: seq<Cell>)
    requires j <= i < |a.labelWidths|
    ensures |r| == 2 * j
  {
    if j == 0 then [] else PairCells(a, g, i, j - 1) + [PairCell(a, g, i, j - 1, false), PairCell(a, g, i, j - 1, true)]
  }

  /** The diagonal cell of row `i`, coloured by its gain, when gains are given. */
  function DiagonalCell(a: CoveredArgs, g: Geometry, i: nat): (r: seq<Cell>)
    requires i < |a.labelWidths|
  {
    if |a.attColors| > 0 then
      [Cell(CellPos(a, g, i), CellPos(a, g, i), Shade(MatrixScheme(a.colorMode), a.attColors[a.order[i] - 1]))]
    else []
  }

  /** The cells row `i` draws: its pairs with the rows above, then its diagonal cell. */
  function RowCells(a: CoveredArgs, g: Geometry, i: nat): seq<Cell>
    requires i < |a.labelWidths|
  {
    PairCells(a, g, i, i) + DiagonalCell(a, g, i)
  }

  /** The cells of the first `k` rows, in drawing order. */
  function CellsUpTo(a: CoveredArgs, g: Geometry, k: nat): seq<Cell>
    requires k <= |a.labelWidths|
  {
    if k == 0 then [] else CellsUpTo(a, g, k - 1) + RowCells(a, g, k - 1)
  }

  /** The picture `matrix` draws when no colouring raises, or `None` when there are fewer than two labels. */
  function PictureOf(a: MatrixArgs): Option<Picture>
    requires |a.labelWidths| >= 2 ==> Covered(a)
  {
    if |a.labelWidths| < 2 then None
    else
      var g := GeometryOf(a);
      Some(Picture(g, CaptionsUpTo(a, g, |a.labelWidths|), CellsUpTo(a, g, |a.labelWidths|)))
  }

  /** `_blackwhite` divides by the value it colours, so colouring 0 in black and white raises `ZeroDivisionError`. */
  predicate ColorRaises(scheme: Scheme, value: real)
  {
    scheme == BlackWhite && value == 0.0
  }

  /** The dissimilarity of row `i` with one of the rows before `j` is coloured by a value that raises. */
  predicate PairsRaise(a: CoveredArgs, i: nat, j: nat)
    requires j <= i < |a.labelWidths|
  {
    exists j' :: 0 <= j' < j && ColorRaises(MatrixScheme(a.colorMode), PairValue(a, i, j'))
  }

  /** Row `i` colours a value that raises: the dissimilarity of one of its pairs, or its gain. */
  predicate RowRaises(a: CoveredArgs, i: nat)
    requires i < |a.labelWidths|
  {
    || PairsRaise(a, i, i)
    || (|a.attColors| > 0 && ColorRaises(MatrixScheme(a.colorMode), a.attColors[a.order[i] - 1]))
  }

  /** One of the first `k` rows colours a value that raises. */
  predicate RaisesBefore(a: CoveredArgs, k: nat)
    requires k <= |a.labelWidths|
  {
    exists i :: 0 <= i < k && RowRaises(a, i)
  }

  /** Some row colours a value that raises. */
  predicate Raises(a: CoveredArgs)
  {
    RaisesBefore(a, |a.labelWidths|)
  }

  /** What a call of `matrix` comes to: the canvas returned unchanged, the division by zero, or the picture. */
  datatype MatrixOutcome = Unchanged | ZeroDivision | Drawn(picture: Picture)

  function MatrixOf(a: MatrixArgs): MatrixOutcome
    requires |a.labelWidths| >= 2 ==> Covered(a)
  {
    if |a.labelWidths| < 2 then MatrixOutcome.Unchanged
    else if Raises(a) then MatrixOutcome.ZeroDivision
    else Drawn(PictureOf(a).value)
  }

  /** One more pair of cells, appended after `before`. */
  lemma PairCellsStep(a: CoveredArgs, g: Geometry, i: nat, j: nat, before: seq<Cell>)
    requires j < i < |a.labelWidths|
    ensures before + PairCells(a, g, i, j) + [PairCell(a, g, i, j, false), PairCell(a, g, i, j, true)]
      == before + PairCells(a, g, i, j + 1)
  {
  }

  /** The pair cells so far, extended by the cell of rows `i` and `j` and its mirror. */
  lemma PairCellsNext(a: CoveredArgs, g: Geometry, i: nat, j: nat, before: seq<Cell>, acc: seq<Cell>, pair: seq<Cell>)
    requires j < i < |a.labelWidths|
    requires acc == before + PairCells(a, g, i, j)
    requires pair == [
      Cell(CellPos(a, g, i), CellPos(a, g, j), Shade(MatrixScheme(a.colorMode), PairValue(a, i, j))),
      Cell(CellPos(a, g, j), CellPos(a, g, i), Shade(MatrixScheme(a.colorMode), PairValue(a, i, j)))]
    ensures acc + pair == before + PairCells(a, g, i, j + 1)
  {
    assert pair == [PairCell(a, g, i, j, false), PairCell(a, g, i, j, true)];
    PairCellsStep(a, g, i, j, before);
  }

  /**
    The inner loop `for j in range(i)`: the cell of rows `i` and `j`, then its mirror, until a
    colouring raises.
  */
  method DrawPairs(a: CoveredArgs, g: Geometry, i: nat, cells: seq<Cell>) returns (cells': seq<Cell>, raised: bool)
    requires i < |a.labelWidths|
    ensures raised <==> PairsRaise(a, i, i)
    ensures !raised ==> cells' == cells + PairCells(a, g, i, i)
  {
    var scheme := MatrixScheme(a.colorMode);
    cells' := cells;
    var j := 0;
    while j < i
      invariant j <= i
      invariant cells' == cells + PairCells(a, g, i, j)
      invariant forall j' :: 0 <= j' < j ==> !ColorRaises(scheme, PairValue(a, i, j'))
    {
      var value := PairValue(a, i, j);
      if ColorRaises(scheme, value) {
        return cells', true;
      }
      var colo := Shade(scheme, value);
      var x := CellPos(a, g, i);
      var y := CellPos(a, g, j);
      var pair := [Cell(x, y, colo), Cell(y, x, colo)];
      PairCellsNext(a, g, i, j, cells, cells', pair);
      cells' := cells' + pair;
      j := j + 1;
    }
    raised := false;
  }

  /** A row's pair cells and then its diagonal cell, appended after `before`. */
  lemma RowCellsStep(a: CoveredArgs, g: Geometry, i: nat, before: seq<Cell>)
    requires i < |a.labelWidths|
    ensures before + PairCells(a, g, i, i) + DiagonalCell(a, g, i) == before + RowCells(a, g, i)
  {
  }

  /**
    One pass of the outer loop: the two captions of row `i`, its pair cells, its diagonal cell;
    `raised` when one of its colourings raises.
  */
  method DrawRow(a: CoveredArgs, g: Geometry, i: nat, captions: seq<Caption>, cells: seq<Cell>)
    returns (captions': seq<Caption>, cells': seq<Cell>, raised: bool)
    requires i < |a.labelWidths|
    requires captions == CaptionsUpTo(a, g, i) && cells == CellsUpTo(a, g, i)
    ensures raised <==> RowRaises(a, i)
    ensures !raised ==> captions' == CaptionsUpTo(a, g, i + 1) && cells' == CellsUpTo(a, g, i + 1)
  {
    var idx := a.order[i] - 1;
    var half := (g.lineskip / 2) as real;
    var y := g.offset + (g.lineskip * (i + 1)) as real;
    captions' := captions + [Caption(idx, g.offset - a.labelWidths[idx] + half, y + g.block, false)];
    captions' := captions' + [Caption(idx, y + g.block, g.offset + half, true)];
    assert captions' == captions + [RowCaption(a, g, i, false), RowCaption(a, g, i, true)];
    cells', raised := DrawPairs(a, g, i, cells);
    if raised {
      return;
    }
    if |a.attColors| > 0 {
      var scheme := MatrixScheme(a.colorMode);
      if ColorRaises(scheme, a.attColors[idx]) {
        return captions', cells', true;
      }
      var x := CellPos(a, g, i);
      cells' := cells' + [Cell(x, x, Shade(scheme, a.attColors[idx]))];
    }
    assert cells' == cells + PairCells(a, g, i, i) + DiagonalCell(a, g, i);
    RowCellsStep(a, g, i, cells);
  }

  /** The outer loop `for i in range(len(labels))`, until a colouring raises. */
  method DrawRows(a: CoveredArgs, g: Geometry) returns (captions: seq<Caption>, cells: seq<Cell>, raised: bool)
    ensures raised <==> Raises(a)
    ensures !raised ==> captions == CaptionsUpTo(a, g, |a.labelWidths|) && cells == CellsUpTo(a, g, |a.labelWidths|)
  {
    captions, cells := [], [];
    var i := 0;
    while i < |a.labelWidths|
      invariant i <= |a.labelWidths|
      invariant captions == CaptionsUpTo(a, g, i) && cells == CellsUpTo(a, g, i)
      invariant forall i' :: 0 <= i' < i ==> !RowRaises(a, i')
    {
      captions, cells, raised := DrawRow(a, g, i, captions, cells);
      if raised {
        return;
      }
      i := i + 1;
    }
    raised := false;
  }

  /**
    `matrix` up to the drawing calls: the canvas unchanged for fewer than two labels; otherwise
    the dimensions, then row by row the captions and the cells, unless a colouring raises.
  */
  method Matrix(a: MatrixArgs) returns (r: MatrixOutcome)
    requires |a.labelWidths| >= 2 ==> Covered(a)
    ensures r.Unchanged? <==> |a.labelWidths| < 2
    ensures r.ZeroDivision? <==> |a.labelWidths| >= 2 && Raises(a)
    ensures r == MatrixOf(a)
  {
    if |a.labelWidths| < 2 {
      return MatrixOutcome.Unchanged;
    }
    var g := GeometryOf(a);
    var captions, cells, raised := DrawRows(a, g);
    if raised {
      return MatrixOutcome.ZeroDivision;
    }
    r := Drawn(Picture(g, captions, cells));
  }
}
