/** Point store: the numLayers bins that a generation run fills
    (sketch.js:153-158, 174-177).  Each sample is appended to the bin of its
    level, so bin k is the scan restricted to the points of level k. */
module PointStore {
  import opened Classifier
  import opened Sampler

  /** The points of s whose level is k, in their order in s.  It never
      holds more points than s, and a k outside the bins collects nothing. */
  function LevelPoints(s: seq<Point>, numLayers: int, k: int): (r: seq<Point>)
    requires numLayers >= 1
    ensures |r| <= |s|
    ensures !(0 <= k < numLayers) ==> r == []
  {
    if s == [] then []
    else
      var last := s[|s| - 1];
      LevelPoints(s[..|s| - 1], numLayers, k)
        + (if Level(last.brightness, numLayers) == k then [last] else [])
  }

  /** The bins after the points of s have been classified: bin k holds the
      points of level k in the order they were sampled. */
  function Distribute(s: seq<Point>, numLayers: int): (bins: seq<seq<Point>>)
    requires numLayers >= 1
    ensures |bins| == numLayers
  {
    seq(numLayers, k => LevelPoints(s, numLayers, k))
  }

  /** numLayers empty bins: the store right after it is reset. */
  function EmptyBins(numLayers: nat): (bins: seq<seq<Point>>)
    ensures |bins| == numLayers
    ensures forall k :: 0 <= k < numLayers ==> bins[k] == []
  {
    seq(numLayers, _ => [])
  }

  /** The number of points held by all bins together: no bin holds more. */
  function Total(bins: seq<seq<Point>>): (n: nat)
    ensures forall k :: 0 <= k < |bins| ==> |bins[k]| <= n
  {
    if bins == [] then 0 else Total(bins[..|bins| - 1]) + |bins[|bins| - 1]|
  }

  /** Before any sample has been classified every bin is empty. */
  lemma DistributeNothing(numLayers: int)
    requires numLayers >= 1
    ensures Distribute([], numLayers) == EmptyBins(numLayers)
  {
  }

  /** Classifying one more sample appends it to the bin of its level and
      leaves every other bin as it was. */
  lemma DistributeAppend(s: seq<Point>, p: Point, numLayers: int)
    requires numLayers >= 1
    ensures var k := Level(p.brightness, numLayers);
            Distribute(s + [p], numLayers) == Distribute(s, numLayers)[k := Distribute(s, numLayers)[k] + [p]]
  {
    var k := Level(p.brightness, numLayers);
    var before, after := Distribute(s, numLayers), Distribute(s + [p], numLayers);
    assert (s + [p])[..|s|] == s;
    forall c | 0 <= c < numLayers
      ensures after[c] == before[k := before[k] + [p]][c]
    {
      assert after[c] == LevelPoints(s + [p], numLayers, c);
      assert before[c] == LevelPoints(s, numLayers, c);
    }
  }

  /** Appending one point to one bin adds one to the total. */
  lemma {:induction false} TotalAppend(bins: seq<seq<Point>>, k: int, p: Point)
    requires 0 <= k < |bins|
    ensures Total(bins[k := bins[k] + [p]]) == Total(bins) + 1
  {
    var bins' := bins[k := bins[k] + [p]];
    var n := |bins|;
    if k == n - 1 {
      assert bins'[..n - 1] == bins[..n - 1];
    } else {
      assert bins'[..n - 1] == bins[..n - 1][k := bins[k] + [p]];
      TotalAppend(bins[..n - 1], k, p);
    }
  }

  /** Empty bins hold nothing. */
  lemma {:induction false} TotalEmpty(numLayers: nat)
    ensures Total(EmptyBins(numLayers)) == 0
  {
    if numLayers > 0 {
      assert EmptyBins(numLayers)[..numLayers - 1] == EmptyBins(numLayers - 1);
      TotalEmpty(numLayers - 1);
    }
  }

  /** No sample is lost or duplicated: the bins hold exactly |s| points. */
  lemma {:induction false} TotalDistribute(s: seq<Point>, numLayers: int)
    requires numLayers >= 1
    ensures Total(Distribute(s, numLayers)) == |s|
  {
    if s == [] {
      DistributeNothing(numLayers);
      TotalEmpty(numLayers);
    } else {
      var init, last := s[..|s| - 1], s[|s| - 1];
      assert s == init + [last];
      TotalDistribute(init, numLayers);
      DistributeAppend(init, last, numLayers);
      TotalAppend(Distribute(init, numLayers), Level(last.brightness, numLayers), last);
    }
  }

  /** Bin k holds only points of s, and only points of level k. */
  lemma {:induction false} LevelPointsSound(s: seq<Point>, numLayers: int, k: int)
    requires numLayers >= 1
    ensures forall a :: 0 <= a < |LevelPoints(s, numLayers, k)| ==>
              LevelPoints(s, numLayers, k)[a] in s
              && Level(LevelPoints(s, numLayers, k)[a].brightness, numLayers) == k
  {
    if s != [] {
      LevelPointsSound(s[..|s| - 1], numLayers, k);
      assert s == s[..|s| - 1] + [s[|s| - 1]];
    }
  }

  /** Every point of s is held by the bin of its level. */
  lemma {:induction false} LevelPointsComplete(s: seq<Point>, numLayers: int)
    requires numLayers >= 1
    ensures forall a :: 0 <= a < |s| ==> s[a] in LevelPoints(s, numLayers, Level(s[a].brightness, numLayers))
  {
    if s != [] {
      var init := s[..|s| - 1];
      LevelPointsComplete(init, numLayers);
      forall a | 0 <= a < |s|
        ensures s[a] in LevelPoints(s, numLayers, Level(s[a].brightness, numLayers))
      {
        if a < |s| - 1 {
          assert s[a] == init[a];
        }
      }
    }
  }

  /** A bin keeps the order in which its points were sampled. */
  lemma {:induction false} LevelPointsOrdered(s: seq<Point>, numLayers: int, k: int)
    requires numLayers >= 1
    requires InScanOrder(s)
    ensures InScanOrder(LevelPoints(s, numLayers, k))
  {
    if s != [] {
      var init, last := s[..|s| - 1], s[|s| - 1];
      LevelPointsOrdered(init, numLayers, k);
      LevelPointsSound(init, numLayers, k);
      var prefix := LevelPoints(init, numLayers, k);
      forall a | 0 <= a < |prefix|
        ensures Before(prefix[a], last)
      {
        var b :| 0 <= b < |init| && init[b] == prefix[a];
        assert s[b] == init[b];
      }
    }
  }

  /** Sampling cell (i, j) of the scan appends its sample to the bin of
      its level. */
  lemma DistributeRowStep(l: Layout, r: Raster, numLayers: int, j: int, i: int)
    requires l.Valid() && r.Valid() && numLayers >= 1
    requires 0 <= j < Rows(l) && 0 <= i < Cols(l)
    ensures var before := Distribute(GridScan(l, r, j) + RowScan(l, r, j, i), numLayers);
            var p := Sample(l, r, i, j);
            var k := Level(p.brightness, numLayers);
            Distribute(GridScan(l, r, j) + RowScan(l, r, j, i + 1), numLayers) == before[k := before[k] + [p]]
  {
    var top, row, p := GridScan(l, r, j), RowScan(l, r, j, i), Sample(l, r, i, j);
    assert RowScan(l, r, j, i + 1) == row + [p];
    assert top + (row + [p]) == (top + row) + [p];
    DistributeAppend(top + row, p, numLayers);
  }

  /** After classifying a whole scan there are numLayers bins holding
      cols * rows points together. */
  lemma BinsHoldTheScan(l: Layout, r: Raster, numLayers: int)
    requires l.Valid() && r.Valid() && numLayers >= 1
    ensures |Distribute(Scan(l, r), numLayers)| == numLayers
    ensures Total(Distribute(Scan(l, r), numLayers)) == Cols(l) * Rows(l)
  {
    TotalDistribute(Scan(l, r), numLayers);
    MulCommutes(Rows(l), Cols(l));
  }

  /** Bin k of a classified scan is in scan order, and each of its points is
      a cell sample of level k lying strictly inside the plotter area. */
  lemma BinOfScan(l: Layout, r: Raster, numLayers: int, k: int)
    requires l.Valid() && r.Valid() && 0 <= k < numLayers
    ensures var bin := Distribute(Scan(l, r), numLayers)[k];
            && InScanOrder(bin)
            && forall a :: 0 <= a < |bin| ==>
                 && Level(bin[a].brightness, numLayers) == k
                 && IsCellSample(l, r, bin[a])
                 && 0.0 < bin[a].x < l.width && 0.0 < bin[a].y < l.height
  {
    var s := Scan(l, r);
    var bin := Distribute(s, numLayers)[k];
    assert bin == LevelPoints(s, numLayers, k);
    ScanOrdered(l, r);
    LevelPointsOrdered(s, numLayers, k);
    LevelPointsSound(s, numLayers, k);
    ScanCells(l, r);
    forall a | 0 <= a < |bin|
      ensures IsCellSample(l, r, bin[a]) && 0.0 < bin[a].x < l.width && 0.0 < bin[a].y < l.height
    {
      var b :| 0 <= b < |s| && s[b] == bin[a];
      assert IsCellSample(l, r, s[b]);
    }
  }

  /** When every point has level k, bin k is all of s and every other bin
      is empty. */
  lemma {:induction false} AllOneLevel(s: seq<Point>, numLayers: int, k: int)
    requires numLayers >= 1 && 0 <= k < numLayers
    requires forall a :: 0 <= a < |s| ==> Level(s[a].brightness, numLayers) == k
    ensures Distribute(s, numLayers)[k] == s
    ensures forall c :: 0 <= c < numLayers && c != k ==> Distribute(s, numLayers)[c] == []
  {
    forall c | 0 <= c < numLayers
      ensures LevelPoints(s, numLayers, c) == if c == k then s else []
    {
      LevelPointsOfOneLevel(s, numLayers, k, c);
    }
  }

  lemma {:induction false} LevelPointsOfOneLevel(s: seq<Point>, numLayers: int, k: int, c: int)
    requires numLayers >= 1
    requires forall a :: 0 <= a < |s| ==> Level(s[a].brightness, numLayers) == k
    ensures LevelPoints(s, numLayers, c) == if c == k then s else []
  {
    if s != [] {
      LevelPointsOfOneLevel(s[..|s| - 1], numLayers, k, c);
      assert s[..|s| - 1] + [s[|s| - 1]] == s;
    }
  }

  /** With a single layer every point goes to bin 0. */
  lemma SingleLayerTakesAll(s: seq<Point>)
    ensures Distribute(s, 1) == [s]
  {
    AllOneLevel(s, 1, 0);
  }
}
