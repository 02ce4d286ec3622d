/** Marker placement: the row-major walk over the grid that gives every cell
    its marker id and the pixel position of its top-left corner.

    All quantities here are whole pixels. The square of a placement covers
    the half-open pixel ranges [x, x + size) by [y, y + size). */
module Placement {

  /** One marker of the sheet: its dictionary id, the pixel column and row of
      its top-left corner and its edge length in pixels. */
  datatype Placement = Placement(id: int, x: int, y: int, size: int)

  /** The position of cell (r, c) in row-major order. */
  function Index(r: int, c: int, cols: int): int { r * cols + c }

  /** Pixel extent of n squares of edge `size` separated by n - 1 gaps of
      width `gap`. */
  function Span(n: int, size: int, gap: int): (r: int)
    // n steps of one square plus one gap, less the gap after the last square
    ensures r + gap == n * (size + gap)
  {
    n * size + (n - 1) * gap
  }

  /** The marker of cell (r, c) when the grid's top-left corner is at
      (ox, oy): consecutive columns (rows) are one marker plus one gap apart. */
  function Cell(r: int, c: int, cols: int, ox: int, oy: int, size: int, gap: int): (p: Placement)
    // the id names its cell: division and remainder by cols give back r and c
    ensures 0 <= c < cols ==> p.id / cols == r && p.id % cols == c
    // the corner is c steps right of and r steps below (ox, oy)
    ensures p.x - ox == c * (size + gap) && p.y - oy == r * (size + gap) && p.size == size
  {
    if 0 <= c < cols then
      DivModUnique(Index(r, c, cols), cols, r, c);
      Placement(Index(r, c, cols), ox + c * (size + gap), oy + r * (size + gap), size)
    else
      Placement(Index(r, c, cols), ox + c * (size + gap), oy + r * (size + gap), size)
  }

  /** Multiplying by a positive factor at least one does not shrink. */
  lemma MulAtLeast(a: int, d: int)
    requires a >= 1 && d > 0
    ensures a * d >= d
  {
    assert a * d == (a - 1) * d + d;
  }

  /** Euclidean division is unique: a quotient and a remainder in range
      that rebuild i are the ones `/` and `%` give. */
  lemma DivModUnique(i: int, d: int, q: int, m: int)
    requires d > 0 && 0 <= m < d && i == q * d + m
    ensures i / d == q && i % d == m
  {
    var q', m' := i / d, i % d;
    if q' > q {
      MulAtLeast(q' - q, d);
      assert false;
    } else if q' < q {
      MulAtLeast(q - q', d);
      assert false;
    }
  }

  /** Row-major index arithmetic: cell (r, c) of a grid with `cols` columns
      sits at a position inside the grid, from which the row and column come
      back by division and remainder. */
  lemma IndexDivMod(r: int, c: int, rows: int, cols: int)
    requires 0 <= r < rows && 0 <= c < cols
    ensures 0 <= Index(r, c, cols) < rows * cols
    ensures Index(r, c, cols) / cols == r
    ensures Index(r, c, cols) % cols == c
  {
    assert rows * cols == (rows - 1 - r) * cols + r * cols + cols;
    assert (rows - 1 - r) * cols >= 0;
    DivModUnique(Index(r, c, cols), cols, r, c);
  }

  /** Every position of the row-major order belongs to exactly the cell its
      quotient and remainder name. */
  lemma IndexCovers(i: int, rows: int, cols: int)
    requires 0 <= rows && 0 < cols && 0 <= i < rows * cols
    ensures 0 <= i / cols < rows && 0 <= i % cols < cols
    ensures Index(i / cols, i % cols, cols) == i
  {
    assert i == (i / cols) * cols + i % cols;
  }

  /** The placements of a rows-by-cols grid in the order the program emits
      them: row by row, left to right within a row. */
  function Placements(rows: int, cols: int, ox: int, oy: int, size: int, gap: int): (ps: seq<Placement>)
    requires 0 <= rows && 0 < cols
    ensures |ps| == rows * cols
    // ids are 0, 1, ..., rows * cols - 1 in increasing order, so each once
    ensures forall i :: 0 <= i < |ps| ==> ps[i].id == i && ps[i].size == size
    // row-major: cell (r, c) is at position r * cols + c with its grid position
    ensures forall r, c :: 0 <= r < rows && 0 <= c < cols ==>
              Index(r, c, cols) < |ps| && ps[Index(r, c, cols)] == Cell(r, c, cols, ox, oy, size, gap)
  {
    var ps := seq(rows * cols, i requires 0 <= i < rows * cols =>
                    Cell(i / cols, i % cols, cols, ox, oy, size, gap));
    RowMajor(rows, cols, ox, oy, size, gap, ps);
    ps
  }

  lemma RowMajor(rows: int, cols: int, ox: int, oy: int, size: int, gap: int, ps: seq<Placement>)
    requires 0 <= rows && 0 < cols && |ps| == rows * cols
    requires forall i :: 0 <= i < |ps| ==> ps[i] == Cell(i / cols, i % cols, cols, ox, oy, size, gap)
    ensures forall i :: 0 <= i < |ps| ==> ps[i].id == i && ps[i].size == size
    ensures forall r, c :: 0 <= r < rows && 0 <= c < cols ==>
              Index(r, c, cols) < |ps| && ps[Index(r, c, cols)] == Cell(r, c, cols, ox, oy, size, gap)
  {
    forall i | 0 <= i < |ps|
      ensures ps[i].id == i
    {
      IndexCovers(i, rows, cols);
    }
    forall r, c | 0 <= r < rows && 0 <= c < cols
      ensures Index(r, c, cols) < |ps| && ps[Index(r, c, cols)] == Cell(r, c, cols, ox, oy, size, gap)
    {
      IndexDivMod(r, c, rows, cols);
    }
  }

  /** The nested loop of the program: a running marker id, columns inside
      rows. It builds exactly the row-major sequence above. */
  method PlaceMarkers(rows: int, cols: int, ox: int, oy: int, size: int, gap: int)
    returns (ps: seq<Placement>)
    requires 0 <= rows && 0 < cols
    ensures ps == Placements(rows, cols, ox, oy, size, gap)
  {
    ghost var all := Placements(rows, cols, ox, oy, size, gap);
    ps := [];
    var markerId := 0;
    var r := 0;
    while r < rows
      invariant 0 <= r <= rows
      invariant markerId == |ps| == r * cols <= rows * cols
      invariant ps == all[..markerId]
    {
      var c := 0;
      while c < cols
        invariant 0 <= c <= cols
        invariant markerId == |ps| == r * cols + c <= rows * cols
        invariant ps == all[..markerId]
      {
        IndexDivMod(r, c, rows, cols);
        assert all[Index(r, c, cols)] == Cell(r, c, cols, ox, oy, size, gap);
        assert all[..markerId + 1] == all[..markerId] + [all[markerId]];
        ps := ps + [Cell(r, c, cols, ox, oy, size, gap)];
        markerId := markerId + 1;
        c := c + 1;
      }
      assert r * cols + cols == (r + 1) * cols;
      r := r + 1;
    }
  }

  /** Every square lies inside the grid's bounding box, whose top-left corner
      is (ox, oy) and whose extent is the span of cols columns by rows rows. */
  lemma {:induction false} InsideGrid(rows: int, cols: int, ox: int, oy: int, size: int, gap: int, i: int)
    requires 0 <= rows && 0 < cols && 0 <= size && 0 <= gap
    requires 0 <= i < rows * cols
    ensures var p := Placements(rows, cols, ox, oy, size, gap)[i];
      && ox <= p.x && p.x + size <= ox + Span(cols, size, gap)
      && oy <= p.y && p.y + size <= oy + Span(rows, size, gap)
  {
    IndexCovers(i, rows, cols);
    var r, c := i / cols, i % cols;
    StepBound(c, cols, size, gap);
    StepBound(r, rows, size, gap);
  }

  /** The k-th of n squares starts at k steps and ends within the span. */
  lemma StepBound(k: int, n: int, size: int, gap: int)
    requires 0 <= k < n && 0 <= size && 0 <= gap
    ensures 0 <= k * (size + gap)
    ensures k * (size + gap) + size <= Span(n, size, gap)
  {
    var step := size + gap;
    if step > 0 {
      if k > 0 {
        MulAtLeast(k, step);
      }
      MulAtLeast(n - k, step);
      assert n * step == k * step + (n - k) * step;
    }
  }

  /** Two different markers never overlap: their squares are apart on the
      horizontal or on the vertical axis. */
  lemma {:induction false} Disjoint(rows: int, cols: int, ox: int, oy: int, size: int, gap: int, i: int, j: int)
    requires 0 <= rows && 0 < cols && 0 <= size && 0 <= gap
    requires 0 <= i < rows * cols && 0 <= j < rows * cols && i != j
    ensures var ps := Placements(rows, cols, ox, oy, size, gap);
      || ps[i].x + size <= ps[j].x || ps[j].x + size <= ps[i].x
      || ps[i].y + size <= ps[j].y || ps[j].y + size <= ps[i].y
  {
    IndexCovers(i, rows, cols);
    IndexCovers(j, rows, cols);
    var ri, ci, rj, cj := i / cols, i % cols, j / cols, j % cols;
    if ci < cj {
      FarApart(ci, cj, size, gap);
    } else if cj < ci {
      FarApart(cj, ci, size, gap);
    } else if ri < rj {
      FarApart(ri, rj, size, gap);
    } else {
      assert rj < ri;
      FarApart(rj, ri, size, gap);
    }
  }

  /** Squares at grid steps a < b do not overlap along that axis. */
  lemma FarApart(a: int, b: int, size: int, gap: int)
    requires a < b && 0 <= size && 0 <= gap
    ensures a * (size + gap) + size <= b * (size + gap)
  {
    var step := size + gap;
    if step > 0 {
      MulAtLeast(b - a, step);
      assert b * step == a * step + (b - a) * step;
    }
  }

  /** Neighbours in a row (column) are exactly one marker plus one gap apart,
      so the gap between them is the separation. */
  lemma {:induction false} Neighbours(rows: int, cols: int, ox: int, oy: int, size: int, gap: int, r: int, c: int)
    requires 0 <= rows && 0 < cols && 0 <= r < rows && 0 <= c < cols
    ensures var ps := Placements(rows, cols, ox, oy, size, gap);
      && (c + 1 < cols ==>
            && ps[Index(r, c + 1, cols)].x == ps[Index(r, c, cols)].x + size + gap
            && ps[Index(r, c + 1, cols)].y == ps[Index(r, c, cols)].y)
      && (r + 1 < rows ==>
            && ps[Index(r + 1, c, cols)].y == ps[Index(r, c, cols)].y + size + gap
            && ps[Index(r + 1, c, cols)].x == ps[Index(r, c, cols)].x)
  {
    var ps := Placements(rows, cols, ox, oy, size, gap);
    var step := size + gap;
    assert ps[Index(r, c, cols)] == Cell(r, c, cols, ox, oy, size, gap);
    if c + 1 < cols {
      assert ps[Index(r, c + 1, cols)] == Cell(r, c + 1, cols, ox, oy, size, gap);
      assert (c + 1) * step == c * step + step;
    }
    if r + 1 < rows {
      assert ps[Index(r + 1, c, cols)] == Cell(r + 1, c, cols, ox, oy, size, gap);
      assert (r + 1) * step == r * step + step;
    }
  }

  /** The last column's right edge and the last row's bottom edge close the
      grid's bounding box exactly. */
  lemma {:induction false} FarEdges(rows: int, cols: int, ox: int, oy: int, size: int, gap: int)
    requires 0 < rows && 0 < cols
    ensures var ps := Placements(rows, cols, ox, oy, size, gap);
      && ps[Index(0, cols - 1, cols)].x + size == ox + Span(cols, size, gap)
      && ps[Index(rows - 1, 0, cols)].y + size == oy + Span(rows, size, gap)
  {
    assert Span(cols, size, gap) == (cols - 1) * (size + gap) + size;
    assert Span(rows, size, gap) == (rows - 1) * (size + gap) + size;
  }
}
