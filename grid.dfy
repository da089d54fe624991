/**
  The grid overlay of the ship layout: the design's room mask, one digit per
  cell in row-major order, becomes one outlined square per occupied cell.
*/
module Grid {
  import opened Wrappers
  import opened Strings
  import opened Sprites

  /** `[int(val) for val in ship_mask]`: every character must be a decimal digit. */
  function ParseMask(mask: string): (r: Result<seq<nat>, Error>)
    ensures r.Ok? <==> forall i :: 0 <= i < |mask| ==> IsDigit(mask[i])
    ensures r.Ok? ==> |r.value| == |mask| && forall i :: 0 <= i < |mask| ==> r.value[i] == DigitValue(mask[i])
    ensures r.Err? ==> exists i :: 0 <= i < |mask| && !IsDigit(mask[i]) && r.error == InvalidLiteral(mask[i])
    decreases |mask|
  {
    if |mask| == 0 then Ok([])
    else if !IsDigit(mask[0]) then Err(InvalidLiteral(mask[0]))
    else
      var rest :- ParseMask(mask[1..]);
      Ok([DigitValue(mask[0])] + rest)
  }

  /** The outline of the cell in column `c` and row `r`, inclusive corners as `ImageDraw.rectangle` takes them. */
  function CellBox(c: int, r: int, t: int): Box {
    Box(c * t, r * t, (c + 1) * t - 1, (r + 1) * t - 1)
  }

  /** The outlines of the nonzero cells among the first `|cells|`, in row-major order. */
  function GridOutlines(cells: seq<nat>, cols: nat, t: nat): (ls: seq<Layer>)
    requires cols > 0
    ensures |ls| <= |cells|
    decreases |cells|
  {
    if |cells| == 0 then []
    else
      var i := |cells| - 1;
      GridOutlines(cells[..i], cols, t) + (if cells[i] != 0 then [Outline(CellBox(i % cols, i / cols, t))] else [])
  }

  /** The overlay the rasteriser produces. */
  function GridOverlay(mask: string, rows: nat, cols: nat, width: nat, height: nat, t: nat): Result<Sprite, Error> {
    var cells :- ParseMask(mask);
    if |cells| != rows * cols then Err(GeometryError)
    else Ok(Sprite(width, height, Blank, if cols == 0 then [] else GridOutlines(cells, cols, t)))
  }

  /**
    The rasteriser: the mask is parsed, reshaped into `rows` x `cols` (which
    fails unless it has exactly that many cells) and every nonzero cell is
    outlined on a transparent canvas of the interior's size.
  */
  method RasteriseGrid(mask: string, rows: nat, cols: nat, width: nat, height: nat, t: nat) returns (r: Result<Sprite, Error>)
    ensures r.Ok? <==> (forall i :: 0 <= i < |mask| ==> IsDigit(mask[i])) && |mask| == rows * cols
    ensures r.Ok? ==> r.value.width == width && r.value.height == height && r.value.origin == Blank
    ensures r.Ok? && cols > 0 ==> r.value.layers == GridOutlines(ParseMask(mask).value, cols, t)
    ensures r.Ok? && cols == 0 ==> r.value.layers == []
    ensures r == GridOverlay(mask, rows, cols, width, height, t)
  {
    var parsed := ParseMask(mask);
    if parsed.Err? {
      return Err(parsed.error);
    }
    var cells := parsed.value;
    if |cells| != rows * cols {
      return Err(GeometryError);
    }
    var grid := NewSprite(width, height);
    if cols == 0 {
      return Ok(grid);
    }
    var i := 0;
    while i < |cells|
      invariant 0 <= i <= |cells|
      invariant grid.width == width && grid.height == height && grid.origin == Blank
      invariant grid.layers == GridOutlines(cells[..i], cols, t)
    {
      assert cells[..i + 1][..i] == cells[..i];
      if cells[i] != 0 {
        var column, row := i % cols, i / cols;
        grid := DrawOutline(grid, Box(column * t, row * t, (column + 1) * t - 1, (row + 1) * t - 1));
      }
      i := i + 1;
    }
    assert cells[..|cells|] == cells;
    return Ok(grid);
  }

  /** An outline is drawn exactly for each nonzero cell index. */
  lemma {:induction false} GridOutlinesMembers(cells: seq<nat>, cols: nat, t: nat, b: Box)
    requires cols > 0
    ensures Outline(b) in GridOutlines(cells, cols, t) <==> exists i :: 0 <= i < |cells| && cells[i] != 0 && b == CellBox(i % cols, i / cols, t)
    decreases |cells|
  {
    if |cells| > 0 {
      var n := |cells| - 1;
      GridOutlinesMembers(cells[..n], cols, t, b);
      if Outline(b) in GridOutlines(cells, cols, t) && Outline(b) !in GridOutlines(cells[..n], cols, t) {
        assert cells[n] != 0 && b == CellBox(n % cols, n / cols, t);
      }
      if exists i :: 0 <= i < |cells| && cells[i] != 0 && b == CellBox(i % cols, i / cols, t) {
        var i :| 0 <= i < |cells| && cells[i] != 0 && b == CellBox(i % cols, i / cols, t);
        if i < n {
          assert cells[..n][i] == cells[i];
        }
      }
    }
  }

  /** Every drawn layer is the outline of some nonzero cell, and there is one per nonzero cell. */
  lemma {:induction false} GridOutlinesAreCells(cells: seq<nat>, cols: nat, t: nat)
    requires cols > 0
    ensures forall k :: 0 <= k < |GridOutlines(cells, cols, t)| ==>
      GridOutlines(cells, cols, t)[k].Outline? &&
      exists i :: 0 <= i < |cells| && cells[i] != 0 && GridOutlines(cells, cols, t)[k].box == CellBox(i % cols, i / cols, t)
    ensures |GridOutlines(cells, cols, t)| == NonzeroCount(cells)
    decreases |cells|
  {
    if |cells| > 0 {
      var n := |cells| - 1;
      GridOutlinesAreCells(cells[..n], cols, t);
      var prev := GridOutlines(cells[..n], cols, t);
      forall k | 0 <= k < |prev|
        ensures exists i :: 0 <= i < |cells| && cells[i] != 0 && prev[k].box == CellBox(i % cols, i / cols, t)
      {
        var i :| 0 <= i < n && cells[..n][i] != 0 && prev[k].box == CellBox(i % cols, i / cols, t);
        assert cells[i] == cells[..n][i];
      }
    }
  }

  /** The number of nonzero cells. */
  function NonzeroCount(cells: seq<nat>): nat
    decreases |cells|
  {
    if |cells| == 0 then 0 else NonzeroCount(cells[..|cells| - 1]) + (if cells[|cells| - 1] != 0 then 1 else 0)
  }

  /** A number has one quotient and one remainder. */
  lemma QuotientUnique(a: int, x: int, b: int, y: int, cols: int)
    requires cols > 0 && 0 <= x < cols && 0 <= y < cols && a * cols + x == b * cols + y
    ensures a == b && x == y
  {
    assert (a - b) * cols == a * cols - b * cols;
    SmallMultipleIsZero(a - b, cols, y - x);
  }

  /** The only multiple of `cols` strictly between `-cols` and `cols` is 0. */
  lemma SmallMultipleIsZero(d: int, cols: int, e: int)
    requires cols > 0 && d * cols == e && -cols < e < cols
    ensures d == 0
  {
    if d >= 1 {
      MulAtLeast(d, cols);
      assert false;
    } else if d <= -1 {
      MulAtLeast(-d, cols);
      assert false;
    }
  }

  lemma MulAtLeast(d: int, cols: int)
    requires d >= 1 && cols > 0
    ensures d * cols >= cols && (-d) * cols == -(d * cols)
  {
  }

  lemma CellIndex(r: nat, c: nat, cols: nat)
    requires c < cols
    ensures (r * cols + c) % cols == c && (r * cols + c) / cols == r
  {
    var i := r * cols + c;
    QuotientUnique(i / cols, i % cols, r, c, cols);
  }

  lemma CellBoxInjective(c: int, r: int, c': int, r': int, t: int)
    requires t > 0 && CellBox(c, r, t) == CellBox(c', r', t)
    ensures c == c' && r == r'
  {
  }

  /** Row and column determine the cell index. */
  lemma IndexFromCell(i: nat, n: nat, cols: nat)
    requires cols > 0 && i % cols == n % cols && i / cols == n / cols
    ensures i == n
  {
  }

  /**
    Cell (row `r`, column `c`) of a `rows` x `cols` mask gets an outline exactly
    when mask index `r*cols + c` is nonzero: no extra outlines, no missing ones.
  */
  lemma GridCellOutlined(cells: seq<nat>, rows: nat, cols: nat, t: nat, r: nat, c: nat)
    requires cols > 0 && t > 0 && |cells| == rows * cols && r < rows && c < cols
    ensures r * cols + c < |cells|
    ensures Outline(CellBox(c, r, t)) in GridOutlines(cells, cols, t) <==> cells[r * cols + c] != 0
  {
    MulMonotone(r + 1, rows, cols);
    CellIndex(r, c, cols);
    GridOutlinesMembers(cells, cols, t, CellBox(c, r, t));
    if Outline(CellBox(c, r, t)) in GridOutlines(cells, cols, t) {
      var i :| 0 <= i < |cells| && cells[i] != 0 && CellBox(c, r, t) == CellBox(i % cols, i / cols, t);
      CellBoxInjective(c, r, i % cols, i / cols, t);
      IndexFromCell(i, r * cols + c, cols);
    }
  }

  lemma MulMonotone(a: nat, b: nat, c: nat)
    requires a <= b
    ensures a * c <= b * c
  {
  }

  /** With a positive tile size no cell is outlined twice. */
  lemma {:induction false} GridOutlinesDistinct(cells: seq<nat>, cols: nat, t: nat)
    requires cols > 0 && t > 0
    ensures forall k, l :: 0 <= k < l < |GridOutlines(cells, cols, t)| ==> GridOutlines(cells, cols, t)[k] != GridOutlines(cells, cols, t)[l]
    decreases |cells|
  {
    if |cells| > 0 {
      var n := |cells| - 1;
      GridOutlinesDistinct(cells[..n], cols, t);
      var prev := GridOutlines(cells[..n], cols, t);
      if cells[n] != 0 {
        var b := CellBox(n % cols, n / cols, t);
        if Outline(b) in prev {
          GridOutlinesMembers(cells[..n], cols, t, b);
          var i :| 0 <= i < n && cells[..n][i] != 0 && b == CellBox(i % cols, i / cols, t);
          CellBoxInjective(n % cols, n / cols, i % cols, i / cols, t);
          IndexFromCell(i, n, cols);
          assert false;
        }
      }
    }
  }

  /** The two-by-two mask "1010" on 25 pixel tiles outlines the two cells of the left column. */
  lemma TwoByTwoExample()
    ensures ParseMask("1010").Ok? && ParseMask("1010").value == [1, 0, 1, 0]
    ensures GridOutlines([1, 0, 1, 0], 2, 25) == [Outline(Box(0, 0, 24, 24)), Outline(Box(0, 25, 24, 49))]
  {
    assert "1010"[1..] == "010" && "010"[1..] == "10" && "10"[1..] == "0" && "0"[1..] == "";
    assert ParseMask("0").value == [0];
    assert ParseMask("10").value == [1, 0];
    assert ParseMask("010").value == [0, 1, 0];
    assert [1, 0, 1, 0][..3] == [1, 0, 1];
    assert [1, 0, 1][..2] == [1, 0];
    assert [1, 0][..1] == [1];
    assert [1][..0] == [];
  }
}
