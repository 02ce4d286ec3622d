/** The grid layout and auto-scale engine: from the requested grid and page
    to the realised marker geometry in millimetres, its whole-pixel raster at
    one of two resolutions, the centring offsets and the placement of every
    marker.

    Millimetre quantities are exact reals. The program truncates a
    non-negative float to an integer, which is `.Floor` here, and centres with
    floor division by 2, which is Dafny's `/ 2` (the two agree for a positive
    divisor). */
module GridLayout {
  import Paper
  import Placement

  /** A grid request: the number of rows and columns, the nominal marker edge
      and gap in millimetres, and the page. */
  datatype GridSpec = GridSpec(
    rows: int,
    cols: int,
    markerMm: real,
    separationMm: real,
    paperSize: string,
    orientation: string)

  /** The values the program uses when the request leaves a field out:
      5 rows of 7 markers of 30 mm, 10 mm apart, on A4 portrait. */
  const Default := GridSpec(5, 7, 30.0, 10.0, "A4", "portrait")

  /** The inputs on which the program's arithmetic is meaningful: at least one
      row and one column, a marker of positive size and a gap that may be zero
      (markers touching) but not negative. */
  predicate Valid(g: GridSpec)
  {
    g.rows >= 1 && g.cols >= 1 && g.markerMm > 0.0 && g.separationMm >= 0.0
  }

  /** Extent in millimetres of n markers of edge `size` with n - 1 gaps. */
  function Footprint(n: int, size: real, gap: real): (r: real)
    // n steps of one marker plus one gap, less the gap after the last marker
    ensures r + gap == (n as real) * (size + gap)
  {
    (n as real) * size + ((n - 1) as real) * gap
  }

  function Min(a: real, b: real): real { if b < a then b else a }

  /** The realised grid in millimetres after auto-scaling. */
  datatype Scaled = Scaled(scale: real, markerMm: real, separationMm: real, widthMm: real, heightMm: real)

  /** True when the nominal grid fits the page on both axes. */
  predicate Fits(g: GridSpec, page: Paper.Dims)
  {
    Footprint(g.cols, g.markerMm, g.separationMm) <= page.width
    && Footprint(g.rows, g.markerMm, g.separationMm) <= page.height
  }

  /** Auto-scale: a grid that fits is kept as requested; a grid that
      overflows either axis is shrunk uniformly, by the largest factor that
      makes it fit. The grid is never enlarged. */
  function AutoScale(g: GridSpec, page: Paper.Dims): (s: Scaled)
    requires Valid(g) && page.width > 0.0 && page.height > 0.0
    ensures 0.0 < s.scale <= 1.0
    // the realised grid fits the page
    ensures s.widthMm <= page.width && s.heightMm <= page.height
  {
    var tw := Footprint(g.cols, g.markerMm, g.separationMm);
    var th := Footprint(g.rows, g.markerMm, g.separationMm);
    FootprintPositive(g.cols, g.markerMm, g.separationMm);
    FootprintPositive(g.rows, g.markerMm, g.separationMm);
    if tw > page.width || th > page.height then
      var scale := Min(page.width / tw, page.height / th);
      ScaleShrinks(tw, th, page.width, page.height);
      Scaled(scale, g.markerMm * scale, g.separationMm * scale, tw * scale, th * scale)
    else
      Scaled(1.0, g.markerMm, g.separationMm, tw, th)
  }

  /** A grid that fits is laid out exactly as requested. */
  lemma FitKeepsNominal(g: GridSpec, page: Paper.Dims)
    requires Valid(g) && page.width > 0.0 && page.height > 0.0
    requires Fits(g, page)
    ensures AutoScale(g, page) ==
      Scaled(1.0, g.markerMm, g.separationMm,
             Footprint(g.cols, g.markerMm, g.separationMm),
             Footprint(g.rows, g.markerMm, g.separationMm))
  {
  }

  /** A grid that overflows either axis is shrunk by the tighter of the two
      axis ratios, strictly, and then meets the page on the limiting axis. */
  lemma OverflowShrinks(g: GridSpec, page: Paper.Dims)
    requires Valid(g) && page.width > 0.0 && page.height > 0.0
    requires !Fits(g, page)
    ensures var s := AutoScale(g, page);
      && 0.0 < s.scale < 1.0
      && s.scale == Min(page.width / Footprint(g.cols, g.markerMm, g.separationMm),
                        page.height / Footprint(g.rows, g.markerMm, g.separationMm))
      && (s.widthMm == page.width || s.heightMm == page.height)
  {
    FootprintPositive(g.cols, g.markerMm, g.separationMm);
    FootprintPositive(g.rows, g.markerMm, g.separationMm);
    ScaleShrinks(Footprint(g.cols, g.markerMm, g.separationMm),
                 Footprint(g.rows, g.markerMm, g.separationMm),
                 page.width, page.height);
  }

  /** Every length is multiplied by the one scale factor, so the grid keeps
      its aspect ratio and its marker-to-gap proportion, and the scaled totals
      are still the footprint of the scaled marker and gap. */
  lemma ScalesUniformly(g: GridSpec, page: Paper.Dims)
    requires Valid(g) && page.width > 0.0 && page.height > 0.0
    ensures var s := AutoScale(g, page);
      && s.markerMm == g.markerMm * s.scale
      && s.separationMm == g.separationMm * s.scale
      && s.widthMm == Footprint(g.cols, g.markerMm, g.separationMm) * s.scale
      && s.heightMm == Footprint(g.rows, g.markerMm, g.separationMm) * s.scale
      && s.widthMm == Footprint(g.cols, s.markerMm, s.separationMm)
      && s.heightMm == Footprint(g.rows, s.markerMm, s.separationMm)
  {
    var k := AutoScale(g, page).scale;
    ScaledFields(g, page);
    FootprintScales(g.cols, g.markerMm, g.separationMm, k);
    FootprintScales(g.rows, g.markerMm, g.separationMm, k);
  }

  /** The realised lengths are the nominal ones times the scale, in both
      branches of the auto-scale. */
  lemma ScaledFields(g: GridSpec, page: Paper.Dims)
    requires Valid(g) && page.width > 0.0 && page.height > 0.0
    ensures var s := AutoScale(g, page); var k := s.scale;
      s == Scaled(k, g.markerMm * k, g.separationMm * k,
                  Footprint(g.cols, g.markerMm, g.separationMm) * k,
                  Footprint(g.rows, g.markerMm, g.separationMm) * k)
  {
    if Fits(g, page) {
      FitKeepsNominal(g, page);
    }
  }

  /** The realised marker is positive, the realised gap is not negative, and
      the realised grid, rebuilt from them, fits the page on both axes. */
  lemma ScaledFits(g: GridSpec, page: Paper.Dims)
    requires Valid(g) && page.width > 0.0 && page.height > 0.0
    ensures var s := AutoScale(g, page);
      && s.markerMm > 0.0 && s.separationMm >= 0.0
      && Footprint(g.cols, s.markerMm, s.separationMm) <= page.width
      && Footprint(g.rows, s.markerMm, s.separationMm) <= page.height
  {
    var s := AutoScale(g, page);
    ScalesUniformly(g, page);
    assert s.markerMm > 0.0 by {
      assert g.markerMm * s.scale > 0.0;
    }
    assert s.separationMm >= 0.0 by {
      assert g.separationMm * s.scale >= 0.0;
    }
  }

  /** A valid grid has a positive extent along each axis. */
  lemma FootprintPositive(n: int, size: real, gap: real)
    requires n >= 1 && size > 0.0 && gap >= 0.0
    ensures Footprint(n, size, gap) >= size > 0.0
  {
    assert (n as real) * size >= size;
    assert ((n - 1) as real) * gap >= 0.0;
  }

  /** Scaling the marker and the gap scales the footprint by the same factor. */
  lemma FootprintScales(n: int, size: real, gap: real, k: real)
    ensures Footprint(n, size * k, gap * k) == Footprint(n, size, gap) * k
  {
    calc {
      Footprint(n, size * k, gap * k);
      (n as real) * (size * k) + ((n - 1) as real) * (gap * k);
      ((n as real) * size + ((n - 1) as real) * gap) * k;
    }
  }

  /** When an extent tw by th overflows a w by h page, the smaller ratio lies
      strictly between 0 and 1, takes both extents inside the page and makes
      the limiting one meet it exactly. */
  lemma ScaleShrinks(tw: real, th: real, w: real, h: real)
    requires tw > 0.0 && th > 0.0 && w > 0.0 && h > 0.0
    requires tw > w || th > h
    ensures var k := Min(w / tw, h / th);
      && 0.0 < k < 1.0
      && tw * k <= w && th * k <= h
      && (tw * k == w || th * k == h)
  {
    var k := Min(w / tw, h / th);
    assert tw * (w / tw) == w;
    assert th * (h / th) == h;
    if k == w / tw {
      assert k <= h / th;
      assert th * k <= th * (h / th);
    } else {
      assert k == h / th && k < w / tw;
      assert tw * k <= tw * (w / tw);
    }
    if tw > w {
      RatioBelowOne(w, tw);
    } else {
      RatioBelowOne(h, th);
    }
  }

  /** A positive length over a longer one is a ratio strictly inside (0, 1). */
  lemma RatioBelowOne(a: real, b: real)
    requires 0.0 < a < b
    ensures 0.0 < a / b < 1.0
  {
    if a / b >= 1.0 {
      MulRight(1.0, a / b, b);
      assert false;
    }
  }

  /** The two raster resolutions: 72 dpi for the preview, 300 dpi for print. */
  function Dpi(lowRes: bool): (dpi: int)
    ensures lowRes ==> dpi == 72
    ensures !lowRes ==> dpi == 300
    // the preview is the coarser raster
    ensures dpi > 0 && (lowRes <==> dpi < 300)
  {
    if lowRes then 72 else 300
  }

  /** Millimetres per inch. */
  const MmPerInch: real := 25.4

  function PxPerMm(dpi: int): real { dpi as real / MmPerInch }

  /** A length in millimetres as a whole number of pixels, truncated. */
  function ToPx(mm: real, dpi: int): (px: int)
    requires mm >= 0.0 && dpi > 0
    // the largest whole pixel count not beyond the exact length
    ensures 0 <= px
    ensures px as real <= mm * PxPerMm(dpi) < px as real + 1.0
  {
    (mm * PxPerMm(dpi)).Floor
  }

  /** The whole-pixel raster of a realised grid on its page. */
  datatype Raster = Raster(
    markerPx: int,
    separationPx: int,
    widthPx: int,
    heightPx: int,
    pageWidthPx: int,
    pageHeightPx: int,
    offsetX: int,
    offsetY: int)

  /** Truncates the realised marker, gap and page to pixels, rebuilds the
      grid's pixel extent from the truncated marker and gap, and centres it
      with floor division. */
  function Rasterise(rows: int, cols: int, s: Scaled, page: Paper.Dims, dpi: int): (r: Raster)
    requires rows >= 1 && cols >= 1 && dpi > 0
    requires s.markerMm >= 0.0 && s.separationMm >= 0.0 && page.width >= 0.0 && page.height >= 0.0
    requires Footprint(cols, s.markerMm, s.separationMm) <= page.width
    requires Footprint(rows, s.markerMm, s.separationMm) <= page.height
    // marker, gap and page are truncated to whole pixels (see ToPx) ...
    ensures r.markerPx == ToPx(s.markerMm, dpi) && r.separationPx == ToPx(s.separationMm, dpi)
    ensures r.pageWidthPx == ToPx(page.width, dpi) && r.pageHeightPx == ToPx(page.height, dpi)
    // ... the grid's pixel extent is rebuilt from the truncated marker and gap ...
    ensures r.widthPx == Placement.Span(cols, r.markerPx, r.separationPx)
    ensures r.heightPx == Placement.Span(rows, r.markerPx, r.separationPx)
    // ... and never exceeds the truncated page ...
    ensures 0 <= r.widthPx <= r.pageWidthPx && 0 <= r.heightPx <= r.pageHeightPx
    // ... so neither centring offset is negative
    ensures 0 <= r.offsetX && 0 <= r.offsetY
  {
    var markerPx := ToPx(s.markerMm, dpi);
    var separationPx := ToPx(s.separationMm, dpi);
    var pageWidthPx := ToPx(page.width, dpi);
    var pageHeightPx := ToPx(page.height, dpi);
    var widthPx := Placement.Span(cols, markerPx, separationPx);
    var heightPx := Placement.Span(rows, markerPx, separationPx);
    assert 0 <= widthPx <= pageWidthPx by {
      PixelGridFits(cols, s.markerMm, s.separationMm, page.width, dpi);
    }
    assert 0 <= heightPx <= pageHeightPx by {
      PixelGridFits(rows, s.markerMm, s.separationMm, page.height, dpi);
    }
    Centre(pageWidthPx, widthPx);
    Centre(pageHeightPx, heightPx);
    Raster(markerPx, separationPx, widthPx, heightPx, pageWidthPx, pageHeightPx,
           (pageWidthPx - widthPx) / 2, (pageHeightPx - heightPx) / 2)
  }

  /** Floor division by 2 of a non-negative leftover splits it into two
      margins, the first never the larger. */
  lemma Centre(pagePx: int, extentPx: int)
    requires 0 <= extentPx <= pagePx
    ensures var o := (pagePx - extentPx) / 2;
      0 <= o && 2 * o <= pagePx - extentPx <= 2 * o + 1
  {
  }

  /** The complete layout of one sheet. */
  datatype Layout = Layout(
    dpi: int,
    scaled: Scaled,
    raster: Raster,
    placements: seq<Placement.Placement>)

  /** The layout the program computes for a grid at the preview (lowRes) or
      print resolution. */
  function Compute(g: GridSpec, lowRes: bool): (l: Layout)
    requires Valid(g)
    // the resolution asked for and the grid auto-scaled to the table's page
    ensures l.dpi == Dpi(lowRes)
    ensures l.scaled == AutoScale(g, Paper.Dimensions(g.paperSize, g.orientation))
    // the raster holds the truncations of the realised marker, gap and page
    ensures var page := Paper.Dimensions(g.paperSize, g.orientation);
      && l.scaled.markerMm >= 0.0 && l.scaled.separationMm >= 0.0
      && l.raster.markerPx == ToPx(l.scaled.markerMm, l.dpi)
      && l.raster.separationPx == ToPx(l.scaled.separationMm, l.dpi)
      && l.raster.pageWidthPx == ToPx(page.width, l.dpi)
      && l.raster.pageHeightPx == ToPx(page.height, l.dpi)
    ensures l.raster.widthPx == Placement.Span(g.cols, l.raster.markerPx, l.raster.separationPx)
    ensures l.raster.heightPx == Placement.Span(g.rows, l.raster.markerPx, l.raster.separationPx)
    // the pixel grid fits the pixel page, so both offsets are non-negative
    ensures 0 <= l.raster.widthPx <= l.raster.pageWidthPx
    ensures 0 <= l.raster.heightPx <= l.raster.pageHeightPx
    ensures 0 <= l.raster.offsetX && 0 <= l.raster.offsetY
  {
    var page := Paper.Dimensions(g.paperSize, g.orientation);
    Paper.PositiveSides(g.paperSize, g.orientation);
    var s := AutoScale(g, page);
    ScaledFits(g, page);
    var dpi := Dpi(lowRes);
    var r := Rasterise(g.rows, g.cols, s, page, dpi);
    Layout(dpi, s, r,
           Placement.Placements(g.rows, g.cols, r.offsetX, r.offsetY, r.markerPx, r.separationPx))
  }

  /** Truncation never makes the grid outgrow the page: when n markers of
      edge `size` with gaps `gap` fit in `bound` millimetres, n truncated
      markers with n - 1 truncated gaps fit in the truncated bound. */
  lemma PixelGridFits(n: int, size: real, gap: real, bound: real, dpi: int)
    requires n >= 1 && size >= 0.0 && gap >= 0.0 && bound >= 0.0 && dpi > 0
    requires Footprint(n, size, gap) <= bound
    ensures 0 <= Placement.Span(n, ToPx(size, dpi), ToPx(gap, dpi)) <= ToPx(bound, dpi)
  {
    var k := PxPerMm(dpi);
    ScaledSpanFits(n, size, gap, bound, k);
    assert ToPx(size, dpi) == (size * k).Floor;
    assert ToPx(gap, dpi) == (gap * k).Floor;
    assert ToPx(bound, dpi) == (bound * k).Floor;
  }

  /** PixelGridFits for any non-negative scale factor k in place of the
      pixels per millimetre. */
  lemma ScaledSpanFits(n: int, size: real, gap: real, bound: real, k: real)
    requires n >= 1 && size >= 0.0 && gap >= 0.0 && k >= 0.0
    requires Footprint(n, size, gap) <= bound
    ensures 0 <= Placement.Span(n, (size * k).Floor, (gap * k).Floor) <= (bound * k).Floor
  {
    assert Footprint(n, size * k, gap * k) <= bound * k by {
      FootprintScales(n, size, gap, k);
      MulRight(Footprint(n, size, gap), bound, k);
    }
    assert size * k >= 0.0 && gap * k >= 0.0;
    SpanOfFloors(n, size * k, gap * k, bound * k);
  }

  lemma MulRight(x: real, y: real, k: real)
    requires x <= y && k >= 0.0
    ensures x * k <= y * k
  {
    assert y * k - x * k == (y - x) * k;
  }

  /** The sum of truncated terms is at most the truncated sum. */
  lemma SpanOfFloors(n: int, a: real, b: real, bound: real)
    requires n >= 1 && a >= 0.0 && b >= 0.0
    requires Footprint(n, a, b) <= bound
    ensures 0 <= Placement.Span(n, a.Floor, b.Floor) <= bound.Floor
  {
    var fa, fb := a.Floor, b.Floor;
    FloorTerm(n, a);
    FloorTerm(n - 1, b);
    assert Placement.Span(n, fa, fb) == n * fa + (n - 1) * fb;
    assert Placement.Span(n, fa, fb) as real <= bound;
  }

  /** One term of a span: m copies of a truncated length, as a real, are at
      most m copies of the length. */
  lemma FloorTerm(m: int, a: real)
    requires m >= 0 && a >= 0.0
    ensures 0 <= m * a.Floor
    ensures (m * a.Floor) as real <= (m as real) * a
  {
    var f := a.Floor;
    assert (m * f) as real == (m as real) * (f as real);
    MulRight(f as real, a, m as real);
  }

  /** The offsets centre the pixel grid on the page: the space left over is
      split in two, the extra pixel of an odd remainder going to the right
      (bottom) margin. */
  lemma Centred(g: GridSpec, lowRes: bool)
    requires Valid(g)
    ensures var r := Compute(g, lowRes).raster;
      && 2 * r.offsetX <= r.pageWidthPx - r.widthPx <= 2 * r.offsetX + 1
      && 2 * r.offsetY <= r.pageHeightPx - r.heightPx <= 2 * r.offsetY + 1
  {
  }

  /** One placement per cell; the ids are 0 .. rows * cols - 1 in increasing
      order, so each appears once; cell (r, c) carries id r * cols + c and
      sits c steps right of and r steps below the top-left offset, a step
      being one marker plus one gap. */
  lemma RowMajorIds(g: GridSpec, lowRes: bool)
    requires Valid(g)
    ensures var l := Compute(g, lowRes);
      && |l.placements| == g.rows * g.cols
      && (forall i :: 0 <= i < |l.placements| ==>
            l.placements[i].id == i && l.placements[i].size == l.raster.markerPx)
      && (forall r, c :: 0 <= r < g.rows && 0 <= c < g.cols ==>
            && Placement.Index(r, c, g.cols) < |l.placements|
            && l.placements[Placement.Index(r, c, g.cols)]
               == Placement.Placement(r * g.cols + c,
                                      l.raster.offsetX + c * (l.raster.markerPx + l.raster.separationPx),
                                      l.raster.offsetY + r * (l.raster.markerPx + l.raster.separationPx),
                                      l.raster.markerPx))
  {
  }

  /** Every marker square lies inside the page. */
  lemma MarkersInsidePage(g: GridSpec, lowRes: bool)
    requires Valid(g)
    ensures var l := Compute(g, lowRes);
      forall i :: 0 <= i < |l.placements| ==>
        && 0 <= l.placements[i].x
        && l.placements[i].x + l.placements[i].size <= l.raster.pageWidthPx
        && 0 <= l.placements[i].y
        && l.placements[i].y + l.placements[i].size <= l.raster.pageHeightPx
  {
    var l := Compute(g, lowRes);
    var r := l.raster;
    Centred(g, lowRes);
    forall i | 0 <= i < |l.placements|
      ensures && 0 <= l.placements[i].x
              && l.placements[i].x + l.placements[i].size <= r.pageWidthPx
              && 0 <= l.placements[i].y
              && l.placements[i].y + l.placements[i].size <= r.pageHeightPx
    {
      Placement.InsideGrid(g.rows, g.cols, r.offsetX, r.offsetY, r.markerPx, r.separationPx, i);
    }
  }

  /** No two markers of a sheet overlap. */
  lemma MarkersDisjoint(g: GridSpec, lowRes: bool, i: int, j: int)
    requires Valid(g)
    requires 0 <= i < g.rows * g.cols && 0 <= j < g.rows * g.cols && i != j
    ensures var l := Compute(g, lowRes);
      var p, q := l.placements[i], l.placements[j];
      || p.x + p.size <= q.x || q.x + q.size <= p.x
      || p.y + p.size <= q.y || q.y + q.size <= p.y
  {
    var r := Compute(g, lowRes).raster;
    Placement.Disjoint(g.rows, g.cols, r.offsetX, r.offsetY, r.markerPx, r.separationPx, i, j);
  }

  /** The right edge of the last column is the left offset plus the grid's
      pixel width, and the bottom edge of the last row the top offset plus
      its pixel height. */
  lemma FarEdgesCloseGrid(g: GridSpec, lowRes: bool)
    requires Valid(g)
    ensures var l := Compute(g, lowRes);
      && Placement.Index(0, g.cols - 1, g.cols) < |l.placements|
      && Placement.Index(g.rows - 1, 0, g.cols) < |l.placements|
      && l.placements[Placement.Index(0, g.cols - 1, g.cols)].x + l.raster.markerPx
         == l.raster.offsetX + l.raster.widthPx
      && l.placements[Placement.Index(g.rows - 1, 0, g.cols)].y + l.raster.markerPx
         == l.raster.offsetY + l.raster.heightPx
  {
    var l := Compute(g, lowRes);
    var r := l.raster;
    assert l.placements == Placement.Placements(g.rows, g.cols, r.offsetX, r.offsetY, r.markerPx, r.separationPx);
    Placement.FarEdges(g.rows, g.cols, r.offsetX, r.offsetY, r.markerPx, r.separationPx);
  }

  /** The default request: the nominal grid is 270 by 190 mm, too wide for
      A4 portrait, so it is shrunk by 210 / 270 = 7 / 9 to 210 by 1330 / 9 mm;
      at 300 dpi the markers are 275 pixels, the gaps 91, and the 2471 by
      1739 pixel grid sits 4 pixels from the left and 884 from the top of the
      2480 by 3507 pixel page. */
  lemma DefaultSheetPrint()
    ensures var l := Compute(Default, false);
      && l.dpi == 300
      && l.scaled == Scaled(7.0 / 9.0, 70.0 / 3.0, 70.0 / 9.0, 210.0, 1330.0 / 9.0)
      && l.raster == Raster(275, 91, 2471, 1739, 2480, 3507, 4, 884)
      && |l.placements| == 35
  {
    DefaultScaled();
    assert ToPx(70.0 / 3.0, 300) == 275;
    assert ToPx(70.0 / 9.0, 300) == 91;
    assert ToPx(210.0, 300) == 2480;
    assert ToPx(297.0, 300) == 3507;
  }

  /** On A4 portrait the default grid is shrunk by 7 / 9. */
  lemma DefaultScaled()
    ensures Paper.Dimensions(Default.paperSize, Default.orientation) == Paper.Dims(210.0, 297.0)
    ensures AutoScale(Default, Paper.Dims(210.0, 297.0))
            == Scaled(7.0 / 9.0, 70.0 / 3.0, 70.0 / 9.0, 210.0, 1330.0 / 9.0)
  {
    assert Footprint(7, 30.0, 10.0) == 270.0;
    assert Footprint(5, 30.0, 10.0) == 190.0;
  }

  /** The default request at the 72 dpi preview: 66 pixel markers, 22 pixel
      gaps, a 594 by 418 pixel grid at (0, 211) on a 595 by 841 pixel page. */
  lemma DefaultSheetPreview()
    ensures var l := Compute(Default, true);
      && l.dpi == 72
      && l.scaled == Scaled(7.0 / 9.0, 70.0 / 3.0, 70.0 / 9.0, 210.0, 1330.0 / 9.0)
      && l.raster == Raster(66, 22, 594, 418, 595, 841, 0, 211)
  {
    DefaultScaled();
    assert ToPx(70.0 / 3.0, 72) == 66;
    assert ToPx(70.0 / 9.0, 72) == 22;
    assert ToPx(210.0, 72) == 595;
    assert ToPx(297.0, 72) == 841;
  }
}
