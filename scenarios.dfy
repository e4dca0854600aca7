/** Whole-pipeline consequences for the runs a user typically makes: a
    uniform gray A4 page, a single layer, and a grid coarser than the page. */
module Scenarios {
  import opened Classifier
  import opened Sampler
  import opened PointStore
  import opened Toolpath

  /** An A4 page (210 x 297 mm) sampled every 10 mm into three layers from an
      image that is 50% gray everywhere: 21 columns, 29 rows, all 609 points
      in the middle bin, whose program has 4 + 3 * 609 + 4 = 1835 lines. */
  lemma A4MidGray(r: Raster, t: Tool)
    requires r.Valid()
    requires forall y, x :: 0 <= y < r.height && 0 <= x < r.width ==> r.pixels[y][x] == 50.0
    ensures var l := Layout(10, 210.0, 297.0);
            var bins := Distribute(Scan(l, r), 3);
            && Cols(l) == 21 && Rows(l) == 29
            && |Scan(l, r)| == 609
            && bins[1] == Scan(l, r) && bins[0] == [] && bins[2] == []
            && |Program(bins[1], 297.0, t)| == 1835
  {
    var l := Layout(10, 210.0, 297.0);
    assert Cols(l) == 21 && Rows(l) == 29;
    UniformScan(l, r, 50.0);
    assert Level(50.0, 3) == 1;
    AllOneLevel(Scan(l, r), 3, 1);
    ProgramShape(Distribute(Scan(l, r), 3)[1], 297.0, t);
  }

  /** With one layer every sample lands in bin 0 whatever its brightness,
      and the single program has 8 + 3 * cols * rows lines. */
  lemma OneLayer(l: Layout, r: Raster, t: Tool)
    requires l.Valid() && r.Valid()
    ensures Distribute(Scan(l, r), 1) == [Scan(l, r)]
    ensures |Program(Scan(l, r), l.height, t)| == 8 + 3 * (Cols(l) * Rows(l))
  {
    SingleLayerTakesAll(Scan(l, r));
    MulCommutes(Rows(l), Cols(l));
    ProgramShape(Scan(l, r), l.height, t);
  }

  /** A grid cell larger than the page gives no points, and every level's
      program is just the eight fixed lines. */
  lemma CoarseGrid(l: Layout, r: Raster, numLayers: int, t: Tool, k: int)
    requires l.Valid() && r.Valid() && 0 <= k < numLayers
    requires l.gridSize as real > l.width || l.gridSize as real > l.height
    ensures Distribute(Scan(l, r), numLayers)[k] == []
    ensures Program(Distribute(Scan(l, r), numLayers)[k], l.height, t) == Preamble(t) + Trailer(l.height, t)
  {
    OversizedGridIsEmpty(l, r);
    assert Distribute([], numLayers)[k] == LevelPoints([], numLayers, k);
  }
}
