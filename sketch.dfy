/** The state sketch.js keeps in module-level variables (the selected
    plotter size and its dimensions, cols, rows and the bins) and the three
    operations that update or read it: choosing a plotter size
    (sketch.js:100-116), a generation run (sketch.js:118-188) and building
    the program of one level (sketch.js:190-218). */
module Sketch {
  import opened Classifier
  import opened Sampler
  import opened PointStore
  import opened Toolpath

  /** The choices of the plotter size selector. */
  datatype PlotterSize = A4 | A3 | A2 | Custom

  /** Width and height in millimetres of the preset sizes. */
  function Preset(size: PlotterSize): (dims: (real, real))
    requires size != Custom
    ensures 0.0 < dims.0 < dims.1
  {
    match size
    case A4 => (210.0, 297.0)
    case A3 => (297.0, 420.0)
    case A2 => (420.0, 594.0)
  }

  /** Why a generation run stopped before sampling. */
  datatype GenError = MissingImage | InvalidParameters | InvalidPlotterDimensions

  datatype Status = Generated | Failed(error: GenError)

  /** The numeric inputs of a run, already parsed: numLayers and gridSize
      are read as integers, the rest as numbers. */
  datatype Params = Params(numLayers: int, gridSize: int, tool: Tool)

  /** The positivity checks made before anything is touched. */
  predicate ParamsValid(p: Params) {
    p.numLayers > 0 && p.gridSize > 0 && p.tool.feedRateXY > 0.0 && p.tool.feedRateZ > 0.0
  }

  class Sketch {
    var plotterSize: PlotterSize
    var plotterWidth: real
    var plotterHeight: real
    var cols: int
    var rows: int
    var bins: seq<seq<Point>>

    /** Unless the custom size is selected, the dimensions are the preset's. */
    ghost predicate Valid()
      reads this
    {
      plotterSize != Custom ==> (plotterWidth, plotterHeight) == Preset(plotterSize)
    }

    /** The state at page load: A4, no bins. */
    constructor ()
      ensures Valid()
      ensures plotterSize == A4 && (plotterWidth, plotterHeight) == (210.0, 297.0)
      ensures cols == 0 && rows == 0 && bins == []
    {
      plotterSize := A4;
      plotterWidth, plotterHeight := 210.0, 297.0;
      cols, rows := 0, 0;
      bins := [];
    }

    /** A new selection in the plotter size selector: a preset sets its
        dimensions, Custom takes the two custom fields as they are. */
    method SelectPlotterSize(size: PlotterSize, customWidth: real, customHeight: real)
      modifies this`plotterSize, this`plotterWidth, this`plotterHeight
      ensures Valid()
      ensures plotterSize == size
      ensures size == Custom ==> (plotterWidth, plotterHeight) == (customWidth, customHeight)
      ensures size != Custom ==> (plotterWidth, plotterHeight) == Preset(size)
    {
      plotterSize := size;
      if size == A4 {
        plotterWidth, plotterHeight := 210.0, 297.0;
      } else if size == A3 {
        plotterWidth, plotterHeight := 297.0, 420.0;
      } else if size == A2 {
        plotterWidth, plotterHeight := 420.0, 594.0;
      } else {
        plotterWidth, plotterHeight := customWidth, customHeight;
      }
    }

    /** The G-code program for one level, built line by line from the bin
        and the current plotter height. */
    method GCodeForLevel(level: int, t: Tool) returns (gcode: seq<Cmd>)
      requires 0 <= level < |bins|
      ensures gcode == Program(bins[level], plotterHeight, t)
      ensures |gcode| == 8 + 3 * |bins[level]|
    {
      gcode := [SetUnitsMm, AbsolutePositioning, HomeAllAxes];
      gcode := gcode + [Move(Linear, None, None, Some(Fixed(t.zTravel)), Some(Plain(t.feedRateZ)), SafeHeightNote)];
      var points := bins[level];
      var i := 0;
      while i < |points|
        invariant 0 <= i <= |points|
        invariant gcode == Preamble(t) + Visits(points[..i], plotterHeight, t)
      {
        var p := points[i];
        var gx := p.x;
        var gy := (plotterHeight - p.y) + 50.0;
        gcode := gcode + [Move(Rapid, Some(Fixed(gx)), Some(Fixed(gy)), None, Some(Plain(t.feedRateXY)), PointNote)];
        gcode := gcode + [Move(Linear, None, None, Some(Fixed(t.zPoint)), Some(Plain(t.feedRateZ)), MarkNote)];
        gcode := gcode + [Move(Linear, None, None, Some(Fixed(t.zTravel)), Some(Plain(t.feedRateZ)), LiftNote)];
        assert points[..i + 1][..i] == points[..i];
        i := i + 1;
      }
      assert points[..i] == points;
      gcode := gcode + [Move(Rapid, Some(Literal(1)), Some(Fixed(plotterHeight - 1.0)), Some(Fixed(t.zTravel + 10.0)),
                             Some(Plain(t.feedRateXY)), ParkingNote)];
      gcode := gcode + [Move(Linear, Some(Literal(0)), Some(Literal(550)), None, None, NoNote)];
      gcode := gcode + [Move(Linear, None, None, Some(Literal(0)), None, NoNote)];
      gcode := gcode + [EndProgram];
      ProgramShape(points, plotterHeight, t);
    }

    /** Drops the previous run's bins and creates numLayers empty ones
        (sketch.js:153-158). */
    method ClearBins(numLayers: int)
      requires numLayers >= 0
      modifies this`bins
      ensures bins == EmptyBins(numLayers)
    {
      bins := [];
      var k := 0;
      while k < numLayers
        invariant 0 <= k <= numLayers
        invariant bins == EmptyBins(k)
      {
        bins := bins + [[]];
        k := k + 1;
      }
    }

    /** Sets cols and rows, then walks the grid row by row and appends every
        cell's sample to the bin of its level (sketch.js:160-179). */
    method SampleImage(raster: Raster, gridSize: int, numLayers: int)
      requires raster.Valid() && Layout(gridSize, plotterWidth, plotterHeight).Valid() && numLayers >= 1
      requires bins == EmptyBins(numLayers)
      modifies this`cols, this`rows, this`bins
      ensures var l := Layout(gridSize, plotterWidth, plotterHeight);
              cols == Cols(l) && rows == Rows(l) && bins == Distribute(Scan(l, raster), numLayers)
    {
      cols := CellCount(plotterWidth, gridSize);
      rows := CellCount(plotterHeight, gridSize);
      SampleRows(Layout(gridSize, plotterWidth, plotterHeight), raster, gridSize, numLayers);
    }

    /** The outer loop: the rows of the grid, top to bottom. */
    method SampleRows(ghost l: Layout, raster: Raster, gridSize: int, numLayers: int)
      requires raster.Valid() && numLayers >= 1
      requires l == Layout(gridSize, plotterWidth, plotterHeight) && l.Valid()
      requires cols == Cols(l) && rows == Rows(l)
      requires bins == EmptyBins(numLayers)
      modifies this`bins
      ensures bins == Distribute(Scan(l, raster), numLayers)
    {
      DistributeNothing(numLayers);
      var j := 0;
      while j < rows
        invariant 0 <= j <= rows
        invariant bins == Distribute(GridScan(l, raster, j), numLayers)
      {
        SampleRow(l, raster, gridSize, numLayers, j);
        j := j + 1;
      }
    }

    /** One row of the scan: the cells of row j, left to right. */
    method SampleRow(ghost l: Layout, raster: Raster, gridSize: int, numLayers: int, j: int)
      requires raster.Valid() && numLayers >= 1
      requires l == Layout(gridSize, plotterWidth, plotterHeight) && l.Valid()
      requires cols == Cols(l) && 0 <= j < Rows(l)
      requires bins == Distribute(GridScan(l, raster, j), numLayers)
      modifies this`bins
      ensures bins == Distribute(GridScan(l, raster, j + 1), numLayers)
    {
      var i := 0;
      assert GridScan(l, raster, j) + RowScan(l, raster, j, 0) == GridScan(l, raster, j);
      while i < cols
        invariant 0 <= i <= cols
        invariant bins == Distribute(GridScan(l, raster, j) + RowScan(l, raster, j, i), numLayers)
      {
        SampleCell(l, raster, gridSize, numLayers, j, i);
        i := i + 1;
      }
    }

    /** Cell (i, j): its centre, the pixel under it, the level of that
        pixel's brightness, and the push onto that level's bin. */
    method SampleCell(ghost l: Layout, raster: Raster, gridSize: int, numLayers: int, j: int, i: int)
      requires raster.Valid() && numLayers >= 1
      requires l == Layout(gridSize, plotterWidth, plotterHeight) && l.Valid()
      requires 0 <= j < Rows(l) && 0 <= i < Cols(l)
      requires bins == Distribute(GridScan(l, raster, j) + RowScan(l, raster, j, i), numLayers)
      modifies this`bins
      ensures bins == Distribute(GridScan(l, raster, j) + RowScan(l, raster, j, i + 1), numLayers)
    {
      var xPlotter := (i * gridSize) as real + gridSize as real / 2.0;
      var yPlotter := (j * gridSize) as real + gridSize as real / 2.0;

      CellPixelInside(l, raster, i, j);
      var xPixel := Rescale(xPlotter, 0.0, plotterWidth, 0.0, raster.width as real).Floor;
      var yPixel := Rescale(yPlotter, 0.0, plotterHeight, 0.0, raster.height as real).Floor;

      var b := raster.pixels[yPixel][xPixel];

      var levelIndex := Rescale(b, 0.0, 100.0, 0.0, numLayers as real - Epsilon).Floor;
      levelIndex := Constrain(levelIndex, 0, numLayers - 1);

      assert Point(xPlotter, yPlotter, b) == Sample(l, raster, i, j);
      DistributeRowStep(l, raster, numLayers, j, i);
      bins := bins[levelIndex := bins[levelIndex] + [Point(xPlotter, yPlotter, b)]];
    }

    /** The program of every level, in level order (sketch.js:184-187). */
    method GenerateDocuments(numLayers: int, t: Tool) returns (documents: seq<seq<Cmd>>)
      requires 0 <= numLayers <= |bins|
      ensures |documents| == numLayers
      ensures forall k :: 0 <= k < numLayers ==> documents[k] == Program(bins[k], plotterHeight, t)
    {
      documents := [];
      var level := 0;
      while level < numLayers
        invariant 0 <= level <= numLayers
        invariant |documents| == level
        invariant forall c :: 0 <= c < level ==> documents[c] == Program(bins[c], plotterHeight, t)
      {
        var gcode := GCodeForLevel(level, t);
        documents := documents + [gcode];
        level := level + 1;
      }
    }

    /** One press of "Generate": check the inputs, rebuild the bins from the
        scaled grayscale image and build one program per level.  A run that
        fails a check leaves the bins, cols and rows as they were; a custom
        size is copied into the dimensions before it is checked. */
    method Generate(p: Params, customWidth: real, customHeight: real, image: Option<Raster>)
      returns (status: Status, documents: seq<seq<Cmd>>)
      requires Valid()
      requires image.Some? ==> image.value.Valid()
      modifies this`plotterWidth, this`plotterHeight, this`cols, this`rows, this`bins
      ensures Valid()
      ensures image.None? ==> status == Failed(MissingImage)
      ensures image.Some? && !ParamsValid(p) ==> status == Failed(InvalidParameters)
      ensures image.Some? && ParamsValid(p) && plotterSize == Custom && !(customWidth > 0.0 && customHeight > 0.0) ==>
                status == Failed(InvalidPlotterDimensions)
      ensures status == Generated <==>
                image.Some? && ParamsValid(p) && (plotterSize == Custom ==> customWidth > 0.0 && customHeight > 0.0)
      ensures (plotterWidth, plotterHeight)
                == if image.Some? && ParamsValid(p) && plotterSize == Custom then (customWidth, customHeight)
                   else old((plotterWidth, plotterHeight))
      ensures status.Failed? ==> documents == [] && cols == old(cols) && rows == old(rows) && bins == old(bins)
      ensures status == Generated ==>
                var l := Layout(p.gridSize, plotterWidth, plotterHeight);
                && l.Valid()
                && cols == Cols(l) && rows == Rows(l)
                && bins == Distribute(Scan(l, image.value), p.numLayers)
                && |bins| == p.numLayers
                && Total(bins) == cols * rows
                && |documents| == p.numLayers
                && forall k :: 0 <= k < p.numLayers ==> documents[k] == Program(bins[k], plotterHeight, p.tool)
    {
      documents := [];
      if image.None? {
        return Failed(MissingImage), documents;
      }
      if p.numLayers <= 0 || p.gridSize <= 0 || p.tool.feedRateXY <= 0.0 || p.tool.feedRateZ <= 0.0 {
        return Failed(InvalidParameters), documents;
      }
      if plotterSize == Custom {
        plotterWidth, plotterHeight := customWidth, customHeight;
        if plotterWidth <= 0.0 || plotterHeight <= 0.0 {
          return Failed(InvalidPlotterDimensions), documents;
        }
      }
      var raster := image.value;
      ClearBins(p.numLayers);
      SampleImage(raster, p.gridSize, p.numLayers);
      documents := GenerateDocuments(p.numLayers, p.tool);
      BinsHoldTheScan(Layout(p.gridSize, plotterWidth, plotterHeight), raster, p.numLayers);
      status := Generated;
    }
  }
}
