/** Image sampler: lays a square grid of gridSize millimetres over the
    plotter area, takes the centre of every whole cell and reads the
    brightness of the raster pixel under it (sketch.js:160-172).  The scan
    is row-major: rows top to bottom outside, columns left to right inside. */
module Sampler {
  import opened Classifier

  /** A sampled point in plotter millimetres with its brightness in [0,100]. */
  datatype Point = Point(x: real, y: real, brightness: real)

  /** The grayscale image after it has been scale-copied to the plotter
      size: pixels[y][x] is the brightness of pixel (x, y). */
  datatype Raster = Raster(width: nat, height: nat, pixels: seq<seq<real>>) {
    predicate Valid() {
      && width > 0 && height > 0
      && |pixels| == height
      && (forall y :: 0 <= y < height ==> |pixels[y]| == width)
      && (forall y, x :: 0 <= y < height && 0 <= x < width ==> 0.0 <= pixels[y][x] <= 100.0)
    }
  }

  /** The plotter area (width x height, mm) and the grid spacing (mm). */
  datatype Layout = Layout(gridSize: int, width: real, height: real) {
    predicate Valid() {
      gridSize > 0 && width > 0.0 && height > 0.0
    }
  }

  /** floor(extent / gridSize): the number of whole cells along one axis;
      one cell more would overrun the extent. */
  function CellCount(extent: real, gridSize: int): (n: nat)
    requires extent > 0.0 && gridSize > 0
    ensures extent < ((n + 1) * gridSize) as real
  {
    FloorBand(extent / gridSize as real, gridSize as real, extent);
    assert (((extent / gridSize as real).Floor + 1) * gridSize) as real
        == ((extent / gridSize as real).Floor as real + 1.0) * gridSize as real;
    (extent / gridSize as real).Floor
  }

  function Cols(l: Layout): nat
    requires l.Valid()
  {
    CellCount(l.width, l.gridSize)
  }

  function Rows(l: Layout): nat
    requires l.Valid()
  {
    CellCount(l.height, l.gridSize)
  }

  /** The centre of cell i along one axis: i * gridSize + gridSize / 2,
      strictly between the cell's two edges. */
  function CellCentre(i: int, gridSize: int): (c: real)
    ensures gridSize > 0 ==> (i * gridSize) as real < c < ((i + 1) * gridSize) as real
  {
    assert (i + 1) * gridSize == i * gridSize + gridSize;
    (i * gridSize) as real + gridSize as real / 2.0
  }

  /** floor(map(c, 0, extent, 0, pixels)): the pixel under coordinate c.
      Pixel k covers the coordinates from k * extent / pixels up to, but not
      including, (k + 1) * extent / pixels. */
  function PixelIndex(c: real, extent: real, pixels: nat): (k: int)
    requires extent > 0.0
    ensures (k as real) * extent <= c * (pixels as real) < (k as real + 1.0) * extent
  {
    assert Rescale(c, 0.0, extent, 0.0, pixels as real) * extent == c * pixels as real;
    FloorBand(Rescale(c, 0.0, extent, 0.0, pixels as real), extent, c * pixels as real);
    Rescale(c, 0.0, extent, 0.0, pixels as real).Floor
  }

  /** Whole cells fit: count * gridSize <= extent. */
  lemma CellCountFits(extent: real, gridSize: int)
    requires extent > 0.0 && gridSize > 0
    ensures (CellCount(extent, gridSize) * gridSize) as real <= extent
  {
    var q := CellCount(extent, gridSize);
    var g := gridSize as real;
    assert q as real <= extent / g;
    ScaleMonotone(q as real, extent / g, g);
    assert (extent / g) * g == extent;
  }

  /** If c is q scaled by a positive g, then c lies between q's floor and
      the next integer, scaled by g. */
  lemma FloorBand(q: real, g: real, c: real)
    requires g > 0.0 && q * g == c
    ensures q.Floor as real * g <= c < (q.Floor as real + 1.0) * g
  {
    var f := q.Floor as real;
    var gap := f + 1.0 - q;
    assert gap > 0.0 && gap * g > 0.0;
    assert (f + 1.0) * g == c + gap * g;
    assert c < (f + 1.0) * g;
    assert c == f * g + (q - f) * g;
    ScaleMonotone(0.0, q - f, g);
    assert f * g <= c;
  }

  /** Integer multiplication by a non-negative factor keeps order. */
  lemma MulMonotone(a: int, b: int, c: int)
    requires a <= b && 0 <= c
    ensures a * c <= b * c
  {
    assert b * c - a * c == (b - a) * c;
  }

  /** Every cell centre lies strictly inside the plotter extent. */
  lemma CellCentreInside(i: int, gridSize: int, extent: real)
    requires extent > 0.0 && gridSize > 0
    requires 0 <= i < CellCount(extent, gridSize)
    ensures 0.0 < CellCentre(i, gridSize) < extent
  {
    var q := CellCount(extent, gridSize);
    CellCountFits(extent, gridSize);
    MulMonotone(i + 1, q, gridSize);
    MulMonotone(0, i, gridSize);
    var lo := i * gridSize;
    assert (i + 1) * gridSize == lo + gridSize;
    assert lo + gridSize <= q * gridSize;
    assert (lo + gridSize) as real <= extent;
  }

  /** Cell centres grow strictly with the cell index. */
  lemma CellCentreIncreasing(i: int, k: int, gridSize: int)
    requires i < k && gridSize > 0
    ensures CellCentre(i, gridSize) < CellCentre(k, gridSize)
  {
    assert k * gridSize - i * gridSize == (k - i) * gridSize;
  }

  /** A coordinate inside the plotter extent maps to a pixel inside the image. */
  lemma PixelIndexInside(c: real, extent: real, pixels: nat)
    requires 0.0 <= c < extent && pixels > 0
    ensures 0 <= PixelIndex(c, extent, pixels) < pixels
  {
    var t := c / extent;
    assert Rescale(c, 0.0, extent, 0.0, pixels as real) == t * pixels as real;
    assert 0.0 <= t < 1.0 by {
      assert t * extent == c;
      if t >= 1.0 {
        ScaleMonotone(1.0, t, extent);
      }
    }
    ScaleMonotone(0.0, t, pixels as real);
    assert t * pixels as real < pixels as real by {
      assert pixels as real - t * pixels as real == (1.0 - t) * pixels as real;
    }
  }

  /** With one pixel per millimetre, which is what the scale-copy to the
      plotter size gives for whole-millimetre dimensions, the pixel under a
      coordinate is the coordinate's integer part. */
  lemma OnePixelPerMillimetre(c: real, extent: real, pixels: nat)
    requires extent > 0.0 && pixels as real == extent
    ensures PixelIndex(c, extent, pixels) == c.Floor
  {
    assert Rescale(c, 0.0, extent, 0.0, pixels as real) == c / extent * extent;
  }

  /** The sample taken for grid cell (i, j): its centre and the brightness
      of the pixel under it. */
  function Sample(l: Layout, r: Raster, i: int, j: int): (p: Point)
    requires l.Valid() && r.Valid()
    requires 0 <= i < Cols(l) && 0 <= j < Rows(l)
    ensures 0.0 < p.x < l.width && 0.0 < p.y < l.height
    ensures 0.0 <= p.brightness <= 100.0
  {
    var x := CellCentre(i, l.gridSize);
    var y := CellCentre(j, l.gridSize);
    CellCentreInside(i, l.gridSize, l.width);
    CellCentreInside(j, l.gridSize, l.height);
    var px := PixelIndex(x, l.width, r.width);
    var py := PixelIndex(y, l.height, r.height);
    PixelIndexInside(x, l.width, r.width);
    PixelIndexInside(y, l.height, r.height);
    Point(x, y, r.pixels[py][px])
  }

  /** The first m samples of row j, left to right: m samples, all on the
      centre line of row j. */
  function RowScan(l: Layout, r: Raster, j: int, m: nat): (s: seq<Point>)
    requires l.Valid() && r.Valid()
    requires 0 <= j < Rows(l) && m <= Cols(l)
    ensures |s| == m
    ensures forall a :: 0 <= a < |s| ==> s[a].y == CellCentre(j, l.gridSize)
  {
    if m == 0 then [] else RowScan(l, r, j, m - 1) + [Sample(l, r, m - 1, j)]
  }

  /** The samples of the first m rows, row-major: m * cols of them. */
  function GridScan(l: Layout, r: Raster, m: nat): (s: seq<Point>)
    requires l.Valid() && r.Valid()
    requires m <= Rows(l)
    ensures |s| == m * Cols(l)
  {
    if m == 0 then []
    else
      assert m * Cols(l) == (m - 1) * Cols(l) + Cols(l);
      GridScan(l, r, m - 1) + RowScan(l, r, m - 1, Cols(l))
  }

  /** All samples of the grid, in scan order: one per whole cell. */
  function Scan(l: Layout, r: Raster): (s: seq<Point>)
    requires l.Valid() && r.Valid()
    ensures |s| == Cols(l) * Rows(l)
  {
    assert Rows(l) * Cols(l) == Cols(l) * Rows(l);
    GridScan(l, r, Rows(l))
  }

  /** Position i of a row prefix is the sample of cell (i, j). */
  lemma {:induction false} RowScanAt(l: Layout, r: Raster, j: int, m: nat, i: int)
    requires l.Valid() && r.Valid()
    requires 0 <= j < Rows(l) && m <= Cols(l)
    requires 0 <= i < m
    ensures |RowScan(l, r, j, m)| == m
    ensures RowScan(l, r, j, m)[i] == Sample(l, r, i, j)
  {
    if i < m - 1 {
      RowScanAt(l, r, j, m - 1, i);
    }
  }

  /** The scan is row-major: cell (i, j) is sample number j * cols + i. */
  lemma {:induction false} GridScanAt(l: Layout, r: Raster, m: nat, i: int, j: int)
    requires l.Valid() && r.Valid()
    requires m <= Rows(l)
    requires 0 <= i < Cols(l) && 0 <= j < m
    ensures |GridScan(l, r, m)| == m * Cols(l)
    ensures 0 <= j * Cols(l) + i < |GridScan(l, r, m)|
    ensures GridScan(l, r, m)[j * Cols(l) + i] == Sample(l, r, i, j)
  {
    var c := Cols(l);
    RowMajorBound(i, j, c, m);
    if j == m - 1 {
      RowScanAt(l, r, m - 1, c, i);
    } else {
      RowMajorBound(i, j, c, m - 1);
      GridScanAt(l, r, m - 1, i, j);
    }
  }

  /** Cell (i, j) of a grid with c columns and m rows has a row-major
      index inside [0, m * c). */
  lemma RowMajorBound(i: int, j: int, c: int, m: int)
    requires 0 <= i < c && 0 <= j < m
    ensures 0 <= j * c + i < m * c
  {
    MulMonotone(0, j, c);
    MulMonotone(j + 1, m, c);
    assert (j + 1) * c == j * c + c;
  }

  /** The whole scan: cols * rows samples, cell (i, j) at index j * cols + i. */
  lemma ScanAt(l: Layout, r: Raster, i: int, j: int)
    requires l.Valid() && r.Valid()
    requires 0 <= i < Cols(l) && 0 <= j < Rows(l)
    ensures |Scan(l, r)| == Cols(l) * Rows(l)
    ensures 0 <= j * Cols(l) + i < |Scan(l, r)|
    ensures Scan(l, r)[j * Cols(l) + i] == Sample(l, r, i, j)
  {
    RowMajorBound(i, j, Cols(l), Rows(l));
    GridScanAt(l, r, Rows(l), i, j);
    MulCommutes(Rows(l), Cols(l));
  }

  lemma MulCommutes(a: int, b: int)
    ensures a * b == b * a
  {
  }

  /** Both pixel indices of a cell centre fall inside the raster. */
  lemma CellPixelInside(l: Layout, r: Raster, i: int, j: int)
    requires l.Valid() && r.Valid()
    requires 0 <= i < Cols(l) && 0 <= j < Rows(l)
    ensures 0 <= PixelIndex(CellCentre(i, l.gridSize), l.width, r.width) < r.width
    ensures 0 <= PixelIndex(CellCentre(j, l.gridSize), l.height, r.height) < r.height
  {
    CellCentreInside(i, l.gridSize, l.width);
    CellCentreInside(j, l.gridSize, l.height);
    PixelIndexInside(CellCentre(i, l.gridSize), l.width, r.width);
    PixelIndexInside(CellCentre(j, l.gridSize), l.height, r.height);
  }

  /** p is the sample of some grid cell. */
  ghost predicate IsCellSample(l: Layout, r: Raster, p: Point)
    requires l.Valid() && r.Valid()
  {
    exists i, j :: 0 <= i < Cols(l) && 0 <= j < Rows(l) && p == Sample(l, r, i, j)
  }

  /** Every point of the first m rows is the sample of a cell of those rows. */
  lemma {:induction false} GridScanCells(l: Layout, r: Raster, m: nat)
    requires l.Valid() && r.Valid()
    requires m <= Rows(l)
    ensures forall a :: 0 <= a < |GridScan(l, r, m)| ==> IsCellSample(l, r, GridScan(l, r, m)[a])
  {
    if m > 0 {
      var top := GridScan(l, r, m - 1);
      var row := RowScan(l, r, m - 1, Cols(l));
      GridScanCells(l, r, m - 1);
      forall a | 0 <= a < |top + row|
        ensures IsCellSample(l, r, (top + row)[a])
      {
        if a >= |top| {
          RowScanAt(l, r, m - 1, Cols(l), a - |top|);
          assert (top + row)[a] == Sample(l, r, a - |top|, m - 1);
        } else {
          assert (top + row)[a] == top[a];
        }
      }
    }
  }

  /** Every sampled point is the centre of a whole grid cell, strictly
      inside the plotter area, with a brightness in [0,100]. */
  lemma ScanCells(l: Layout, r: Raster)
    requires l.Valid() && r.Valid()
    ensures forall a :: 0 <= a < |Scan(l, r)| ==> IsCellSample(l, r, Scan(l, r)[a])
  {
    GridScanCells(l, r, Rows(l));
  }

  /** A raster of one uniform brightness gives every sample that brightness. */
  lemma UniformScan(l: Layout, r: Raster, b: real)
    requires l.Valid() && r.Valid()
    requires forall y, x :: 0 <= y < r.height && 0 <= x < r.width ==> r.pixels[y][x] == b
    ensures forall a :: 0 <= a < |Scan(l, r)| ==> Scan(l, r)[a].brightness == b
  {
    ScanCells(l, r);
    forall a | 0 <= a < |Scan(l, r)|
      ensures Scan(l, r)[a].brightness == b
    {
      var i, j :| 0 <= i < Cols(l) && 0 <= j < Rows(l) && Scan(l, r)[a] == Sample(l, r, i, j);
      CellPixelInside(l, r, i, j);
    }
  }

  /** A grid cell larger than the plotter in either direction yields no samples. */
  lemma {:induction false} OversizedGridIsEmpty(l: Layout, r: Raster)
    requires l.Valid() && r.Valid()
    requires l.gridSize as real > l.width || l.gridSize as real > l.height
    ensures Scan(l, r) == []
  {
    if l.gridSize as real > l.width {
      NoWholeCell(l.width, l.gridSize);
    } else {
      NoWholeCell(l.height, l.gridSize);
    }
  }

  /** A cell wider than the extent does not fit even once. */
  lemma NoWholeCell(extent: real, gridSize: int)
    requires extent > 0.0 && gridSize > 0 && gridSize as real > extent
    ensures CellCount(extent, gridSize) == 0
  {
    var g := gridSize as real;
    assert extent / g < 1.0 by {
      assert (extent / g) * g == extent;
      if extent / g >= 1.0 {
        ScaleMonotone(1.0, extent / g, g);
      }
    }
  }

  /** Scan order: p was sampled before q (an earlier row, or the same row
      and an earlier column). */
  predicate Before(p: Point, q: Point) {
    p.y < q.y || (p.y == q.y && p.x < q.x)
  }

  predicate InScanOrder(s: seq<Point>) {
    forall a, b :: 0 <= a < b < |s| ==> Before(s[a], s[b])
  }

  /** A row prefix is ordered left to right and stays on its row. */
  lemma {:induction false} RowScanOrdered(l: Layout, r: Raster, j: int, m: nat)
    requires l.Valid() && r.Valid()
    requires 0 <= j < Rows(l) && m <= Cols(l)
    ensures InScanOrder(RowScan(l, r, j, m))
    ensures forall a :: 0 <= a < |RowScan(l, r, j, m)| ==>
              RowScan(l, r, j, m)[a].y == CellCentre(j, l.gridSize)
              && RowScan(l, r, j, m)[a].x < CellCentre(m, l.gridSize)
  {
    if m > 0 {
      var s := RowScan(l, r, j, m - 1);
      RowScanOrdered(l, r, j, m - 1);
      CellCentreIncreasing(m - 1, m, l.gridSize);
      forall a | 0 <= a < |s|
        ensures s[a].x < CellCentre(m - 1, l.gridSize)
      {
      }
    }
  }

  /** The first m rows are in scan order and lie above row m. */
  lemma {:induction false} GridScanOrdered(l: Layout, r: Raster, m: nat)
    requires l.Valid() && r.Valid()
    requires m <= Rows(l)
    ensures InScanOrder(GridScan(l, r, m))
    ensures forall a :: 0 <= a < |GridScan(l, r, m)| ==> GridScan(l, r, m)[a].y < CellCentre(m, l.gridSize)
  {
    if m > 0 {
      var top := GridScan(l, r, m - 1);
      var row := RowScan(l, r, m - 1, Cols(l));
      GridScanOrdered(l, r, m - 1);
      RowScanOrdered(l, r, m - 1, Cols(l));
      CellCentreIncreasing(m - 1, m, l.gridSize);
      var s := top + row;
      forall a, b | 0 <= a < b < |s|
        ensures Before(s[a], s[b])
      {
        if b < |top| {
        } else if a < |top| {
          assert s[b] == row[b - |top|];
        } else {
          assert s[a] == row[a - |top|] && s[b] == row[b - |top|];
        }
      }
    }
  }

  /** The full scan visits the cells in row-major order. */
  lemma ScanOrdered(l: Layout, r: Raster)
    requires l.Valid() && r.Valid()
    ensures InScanOrder(Scan(l, r))
  {
    GridScanOrdered(l, r, Rows(l));
  }
}
