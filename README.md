# Image to points G-code: a Dafny model of the generator

The program turns a picture into G-code for a pen plotter or a CNC machine.
It lays a square grid over the plotter area and samples the grayscale
brightness at the centre of every whole cell. It sorts the samples into
`numLayers` brightness levels and writes one G-code program per level. Each
program visits every point of its level: it moves over the point, plunges to
mark it and lifts again.

The model covers the generation run (`generateGCode`) and the program of one
level (`generateGCodeForLevel`) in `sketch.js`. It also covers the plotter-size
presets those functions read. The modules follow the steps of a run:

- `Classifier` maps a brightness in [0, 100] to a level, with p5's `map`,
  `floor` and `constrain`.
- `Sampler` covers the grid: the number of whole cells, the cell centres and
  the pixel under each centre. It also defines the row-major scan of all
  cells as a specification function.
- `PointStore` gives the bins as a function of the scan. Bin k is the scan
  restricted to the points of level k, in scan order.
- `Toolpath` builds the program of one bin as a list of commands: the
  preamble, one move/plunge/lift triplet per point, and the trailer. It also
  reads the points' positions back from a program.
- `Formatter` gives the text of each command and of the document. Numbers
  are written with `toFixed(3)` and lines are joined with `'\n'`. The
  comment at the end of a move line is one of five fixed texts, so it is a
  `Note` value that `NoteText` spells out.
- `Sketch` holds the page's state in a class: the selected plotter size and
  its dimensions, `cols`, `rows` and the bins. Its methods are the imperative
  code of the source: validation, clearing the bins, the nested sampling
  loops and the per-level program loop. Each method is proved against the
  specification functions above.
- `Scenarios` derives whole-run consequences: a uniform gray A4 page, one
  layer, and a grid coarser than the page.

The image is an input. It is the grayscale raster that the source obtains by
scale-copying the upload to the plotter size, and `None` stands for "no image
uploaded". Parsed numeric inputs are parameters as well.

## Model

| member | source | states |
|---|---|---|
| Classifier.Rescale | sketch.js:168-174 | p5's map: a linear rescale that sends lo1 to lo2 and hi1 to hi2 |
| Classifier.Constrain | sketch.js:175 | the result lies in [lo, hi] and equals v when v is already in range |
| Classifier.RawLevel | sketch.js:174 | floor(map(b, 0, 100, 0, numLayers - 0.0001)): level r holds the brightnesses b with r <= b / 100 * (numLayers - 0.0001) < r + 1 |
| Classifier.Level | sketch.js:174-175 | the level of any brightness is a valid bin index, 0 <= level < numLayers |
| Classifier.RescaledInRange | sketch.js:174 | for a brightness in [0,100], the rescaled value before flooring lies in [0, numLayers - 0.0001] |
| Classifier.ClampInactive | sketch.js:174-175 | for a brightness in [0,100] the floored level is already in [0, numLayers-1], so the constrain never changes it |
| Classifier.LevelMonotone | sketch.js:174-175 | a brighter sample never lands in a lower (darker) bin |
| Classifier.BlackIsFirstLevel | sketch.js:174-175 | brightness 0 goes to bin 0 |
| Classifier.WhiteIsLastLevel | sketch.js:174-175 | brightness 100 goes to the last bin, numLayers - 1 |
| Classifier.WhiteOverflowsWithoutEpsilon | sketch.js:174 | without the 0.0001, brightness 100 would floor to numLayers, one past the last bin |
| Sampler.CellCount | sketch.js:160-161 | floor(extent / gridSize): one more whole cell would overrun the extent |
| Sampler.CellCentre | sketch.js:165-166 | i * gridSize + gridSize / 2 lies strictly between the edges i * gridSize and (i + 1) * gridSize of cell i |
| Sampler.PixelIndex | sketch.js:168-169 | floor(map(c, 0, extent, 0, pixels)): pixel k is the one whose span [k * extent / pixels, (k + 1) * extent / pixels) holds c |
| Sampler.CellCountFits | sketch.js:160-161 | floor(extent / gridSize) whole cells fit inside the extent |
| Sampler.NoWholeCell | sketch.js:160-161 | a grid size larger than the extent gives zero cells |
| Sampler.CellCentreInside | sketch.js:165-166 | every cell centre i*g + g/2 of a whole cell lies strictly inside the plotter extent |
| Sampler.CellCentreIncreasing | sketch.js:165-166 | cell centres grow strictly with the cell index |
| Sampler.PixelIndexInside | sketch.js:168-169 | a coordinate inside the plotter extent maps to a pixel index inside the image |
| Sampler.OnePixelPerMillimetre | sketch.js:147-169 | when the image has one pixel per millimetre (the scale-copy to the plotter size), the pixel index is the coordinate's integer part |
| Sampler.CellPixelInside | sketch.js:165-169 | the pixel under every cell centre exists in the image, on both axes |
| Sampler.Sample | sketch.js:165-177 | the sample of cell (i, j) lies strictly inside the plotter area and has a brightness in [0,100] |
| Sampler.RowScan | sketch.js:164-178 | the inner loop's first m cells of row j give m samples, all on row j's centre line |
| Sampler.GridScan | sketch.js:163-179 | the outer loop's first m rows give m * cols samples |
| Sampler.Scan | sketch.js:163-179 | the whole nested loop gives one sample per whole cell, cols * rows in all |
| Sampler.RowScanAt | sketch.js:164-178 | the first m samples of row j are the cells 0..m-1 of that row, in order |
| Sampler.GridScanAt | sketch.js:163-179 | sample j*cols + i of the first m rows is the sample of cell (i, j) |
| Sampler.ScanAt | sketch.js:163-179 | the scan has cols*rows samples, and the sample at j*cols + i is that of cell (i, j) (row-major) |
| Sampler.ScanCells | sketch.js:163-177 | every sample of the scan is the sample of some whole cell |
| Sampler.UniformScan | sketch.js:171-172 | an image of one uniform brightness gives every sample that brightness |
| Sampler.OversizedGridIsEmpty | sketch.js:160-164 | a grid cell larger than the plotter width or height gives no samples at all |
| Sampler.RowScanOrdered | sketch.js:164-166 | a row's samples go strictly left to right, all left of the next cell's centre |
| Sampler.GridScanOrdered | sketch.js:163-166 | the samples of the first m rows are in scan order, all above row m's centre |
| Sampler.ScanOrdered | sketch.js:163-166 | the scan is strictly ordered top to bottom, then left to right |
| PointStore.LevelPoints | sketch.js:174-177 | the samples pushed onto bin k, in scan order: never more than were scanned, and none for a k outside the bins |
| PointStore.Total | sketch.js:153-179 | the number of points over all bins: no single bin holds more |
| PointStore.EmptyBins | sketch.js:153-158 | numLayers bins, each empty |
| PointStore.Distribute | sketch.js:174-177 | classifying a scan gives exactly numLayers bins |
| PointStore.DistributeNothing | sketch.js:153-158 | before any sample is classified, the bins are the freshly reset empty bins |
| PointStore.DistributeAppend | sketch.js:174-177 | classifying one more sample appends it to the bin of its level and leaves every other bin unchanged |
| PointStore.TotalAppend | sketch.js:177 | pushing one point onto one bin adds one to the total number of points |
| PointStore.TotalEmpty | sketch.js:153-158 | the reset bins hold no points |
| PointStore.TotalDistribute | sketch.js:163-179 | no sample is lost or duplicated: the bins hold exactly as many points as were sampled |
| PointStore.LevelPointsSound | sketch.js:174-177 | every point in bin k is a sample of the scan and has level k |
| PointStore.LevelPointsComplete | sketch.js:174-177 | every sample is in the bin of its level |
| PointStore.LevelPointsOrdered | sketch.js:177 | a bin keeps the order in which its points were sampled |
| PointStore.DistributeRowStep | sketch.js:164-177 | sampling cell (i, j) appends its sample to the bin of its level and leaves the other bins unchanged |
| PointStore.BinsHoldTheScan | sketch.js:153-179 | after a run there are numLayers bins holding cols*rows points together |
| PointStore.BinOfScan | sketch.js:160-177 | bin k is in scan order, and each of its points is a cell sample of level k strictly inside the plotter area |
| PointStore.AllOneLevel | sketch.js:174-177 | when every sample has level k, bin k is the whole scan and every other bin is empty |
| PointStore.SingleLayerTakesAll | sketch.js:174-177 | with one layer every sample goes to bin 0 |
| Toolpath.FlipY | sketch.js:205 | the plotter Y (height - y) + 50 of a point inside the plotter lies in (50, height + 50) |
| Toolpath.FlipRoundTrip | sketch.js:205 | the Y flip (height - y) + 50 is undone by height + 50 - gy, in both directions |
| Toolpath.FlipReversesOrder | sketch.js:205 | the flip reverses vertical order and maps (0, height) into (50, height + 50) |
| Toolpath.Visits | sketch.js:201-210 | the loop's lines for k points: one move/plunge/lift triplet per point, 3k lines |
| Toolpath.VisitsAt | sketch.js:201-210 | point i is visited by lines 3i, 3i+1, 3i+2: move over it, plunge, lift |
| Toolpath.Program | sketch.js:190-218 | the command list of one bin of k points: 8 + 3k commands |
| Toolpath.ProgramShape | sketch.js:190-218 | a bin of k points gives 8 + 3k lines: the four preamble lines first and the four trailer lines last |
| Toolpath.ProgramVisit | sketch.js:193-210 | lines 4+3i, 5+3i and 6+3i move over point i at its flipped Y, plunge to zPoint and lift to zTravel |
| Toolpath.TravelAtSafeHeight | sketch.js:197-209 | the line before every move over a point sets Z to zTravel and moves no other axis |
| Toolpath.DecodeVisitsOf | sketch.js:201-210 | the positions read back from the triplets are the bin's positions, in order |
| Toolpath.DecodeProgram | sketch.js:190-218 | given the plotter height, a program determines its bin's point positions in order |
| Formatter.IntText | sketch.js:197-213 | an integer as JavaScript writes it: a minus sign exactly when it is negative, then its digits |
| Formatter.Fixed3 | sketch.js:197-212 | toFixed(3): a minus sign exactly when the value is negative, then the integer part, a point and three decimal digits |
| Formatter.NumText | sketch.js:197-213 | the text of a number on a line (toFixed(3), a raw feed rate or a template integer): a minus sign exactly when it is negative |
| Formatter.Pad3Parse | sketch.js:207 | the three decimals written for n < 1000 read back as n |
| Formatter.ParseFixed3Parts | sketch.js:207 | a sign, an integer part, a point and three decimals read back as the sign and the thousandths |
| Formatter.ParseDigitsOf | sketch.js:207 | the decimal digits of n read back as n |
| Formatter.ThousandthsNearest | sketch.js:207 | the thousandths written by toFixed(3) are the integer nearest to \|v\| * 1000, the larger one on a tie |
| Formatter.Fixed3RoundTrip | sketch.js:207 | a toFixed(3) text reads back as its sign and its thousandths |
| Formatter.Render | sketch.js:193-215 | the text of one line opens with its command word: M for M02, G for every other line |
| Formatter.FixedText | sketch.js:193-195 | the three preamble lines and M02 (line 215) are the command word, then " ; " and the comment |
| Formatter.MoveText | sketch.js:197-214 | a move line opens with G00 for a rapid move and G01 for a linear one, then the words of the axes it sets and its comment |
| Formatter.Join | sketch.js:217 | join('\n'): the text opens with the first line, followed by a line break when there are more |
| Formatter.Document | sketch.js:217 | the text of a program opens with the line of its first command |
| Formatter.RenderNoBreak | sketch.js:193-215 | no rendered line contains a line break |
| Formatter.SplitJoin | sketch.js:217 | splitting the joined text at line breaks gives back the lines |
| Formatter.DocumentLines | sketch.js:217 | the document of a non-empty command list has one line per command, each the text of that command |
| Formatter.ProgramWritable | sketch.js:197-212 | with whole-number feed rates every command of a program can be written |
| Formatter.ProgramDocumentLines | sketch.js:190-217 | the document of a bin of k points has 8 + 3k lines, line i being the text of command i |
| Sketch.Preset | sketch.js:102-110 | every preset has positive dimensions in portrait orientation (width < height) |
| Sketch.Sketch.constructor | sketch.js:7-27 | the page starts on A4 (210 x 297 mm) with no bins |
| Sketch.Sketch.SelectPlotterSize | sketch.js:100-114 | a preset sets its dimensions; Custom takes the custom fields unchecked; the size invariant holds |
| Sketch.Sketch.GCodeForLevel | sketch.js:190-218 | the commands built line by line are the program of the level's bin at the current plotter height, 8 + 3k lines long |
| Sketch.Sketch.ClearBins | sketch.js:153-158 | the bins are replaced by numLayers empty bins |
| Sketch.Sketch.SampleImage | sketch.js:160-179 | cols and rows are the whole-cell counts, and the bins are the classification of the full row-major scan |
| Sketch.Sketch.SampleRows | sketch.js:163-179 | the outer loop: after all rows the reset bins are the classification of the full row-major scan |
| Sketch.Sketch.SampleRow | sketch.js:164-178 | after row j the bins are the classification of the scan of rows 0..j |
| Sketch.Sketch.SampleCell | sketch.js:165-177 | after cell (i, j) the bins are the classification of the scan up to and including that cell |
| Sketch.Sketch.GenerateDocuments | sketch.js:184-187 | one program per level, in level order, each that level's program |
| Sketch.Sketch.Generate | sketch.js:118-188 | each failure (no image, a non-positive parameter, non-positive custom dimensions) in the source's order, leaving cols, rows and bins as they were; success exactly when all checks pass; custom dimensions assigned even when they fail the check; on success the bins are the classified scan holding cols*rows points, with one program per level |
| Scenarios.A4MidGray | sketch.js:118-188 | an A4 page, grid 10 and three layers on a 50% gray image give 21 x 29 = 609 points, all in bin 1, whose program has 1835 lines |
| Scenarios.OneLayer | sketch.js:118-188 | with one layer every sample is in bin 0, and its program has 8 + 3 * cols * rows lines |
| Scenarios.CoarseGrid | sketch.js:118-188 | a grid coarser than the page gives empty bins, and each program is just the eight fixed lines |

## Left out

- The image pipeline (loading the upload, `createImage`, `copy`, `filter(GRAY)`, `loadPixels`, `get` and `brightness`) is p5 library code. The model takes its result as a raster of brightness values in [0, 100] of any positive size. The source makes the raster as large as the plotter, in millimetres.
- Reading the inputs (`int()`/`float()` of the text fields, and NaN for text that is not a number) is left out. The parsed values are parameters: `numLayers` and `gridSize` are integers, the other values are exact reals.
- IEEE double rounding is left out. All arithmetic is on exact reals, so a coordinate or a level boundary that double rounding would move is not modelled.
- `Formatter.NumText`: feed rates go through JavaScript's default number-to-text, which is modelled only for whole numbers below 1e21. A fractional feed rate has no text in the model, and a whole number of 1e21 or more, which JavaScript writes in exponent form ("1e+21"), is written digit by digit. `Fixed3` models `toFixed(3)` by exact rounding half away from zero and does not model the exponent form for magnitudes of 1e21 and above.
- `Formatter.ProgramDocumentLines`: requires whole-number feed rates, because only those have a text in the model (see `Formatter.NumText`). The source writes any positive feed rate as it stands and still emits 8 + 3k lines; a fractional feed rate is not covered.
- `Formatter.ProgramWritable`: states that every command of a program has a text only for whole-number feed rates, for the same reason.
- `Formatter.VisitsWritable`: the same whole-number feed-rate restriction, for the point triplets.
- `Formatter.Fixed3`: a negative value that rounds to zero keeps its "-" sign, as JavaScript writes it.
- The DOM and p5 drawing (`setup`, `draw`, the preview, `redraw`, `alert`, `print`, `displayGCode`, the download buttons, `gcodeOutputSection`) are I/O and are left out. An `alert` becomes the `Failed` status of `Generate`.
- `scaledImg` is a module-level variable in the source, but only a run writes it (sketch.js:147-151) and reads it (sketch.js:168-171). It is a temporary of the run, so the raster is a parameter of `Generate` and not part of the class state.
- `Sketch.Sketch.constructor`: sets `cols` and `rows` to 0, where the source leaves them undefined until the first run (sketch.js:7). Nothing reads them before a run.
- `Sketch.Sketch.GCodeForLevel`: it returns the list of commands, and the joined text is `Formatter.Document` of that list. The tool settings are passed as one `Tool` value, not four numbers.
- `Sketch.Sketch.Generate`: its one body is split into `ClearBins`, `SampleImage`, `SampleRows`, `SampleRow`, `SampleCell` and `GenerateDocuments`. It returns the documents rather than displaying them.
