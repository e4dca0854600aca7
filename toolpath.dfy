/** Toolpath generator: the G-code program for one bin (sketch.js:190-218).
    The words are those of RS-274 (NIST RS274NGC version 3, section 3.5 for
    G0, G1, G21, G28 and G90, section 3.6 for M2).  A program is a fixed
    preamble, one move / plunge / lift triplet per point in bin order, and a
    fixed trailer. */
module Toolpath {
  import opened Sampler

  datatype Option<T> = None | Some(value: T)

  /** A number on a G-code line, with the way the source writes it:
      Fixed is toFixed(3), Plain is JavaScript's default number-to-text
      (used for feed rates), Literal is an integer written into the template. */
  datatype Num = Fixed(v: real) | Plain(v: real) | Literal(n: int) {
    function Value(): real {
      match this
      case Fixed(v) => v
      case Plain(v) => v
      case Literal(n) => n as real
    }
  }

  /** G00 (rapid) or G01 (linear feed). */
  datatype Motion = Rapid | Linear

  /** The fixed comment at the end of a move line, if any. */
  datatype Note = NoNote | SafeHeightNote | PointNote | MarkNote | LiftNote | ParkingNote

  /** One line of a program.  A Move leaves out the axes it does not set. */
  datatype Cmd =
    | SetUnitsMm            // G21
    | AbsolutePositioning   // G90
    | HomeAllAxes           // G28
    | EndProgram            // M02
    | Move(motion: Motion, x: Option<Num>, y: Option<Num>, z: Option<Num>, feed: Option<Num>, note: Note)

  /** The tool settings of a run: marking and travel heights, feed rates. */
  datatype Tool = Tool(zPoint: real, zTravel: real, feedRateXY: real, feedRateZ: real)

  /** The fixed offset added to every flipped Y coordinate. */
  const YOffset: real := 50.0

  /** Plotter Y of a sampled point: flipped about the plotter height, then
      shifted, so a point inside the plotter lands in (50, height + 50). */
  function FlipY(y: real, height: real): (gy: real)
    ensures 0.0 < y < height ==> YOffset < gy < height + YOffset
  {
    (height - y) + YOffset
  }

  /** The sampled Y that a plotter Y came from. */
  function UnflipY(gy: real, height: real): real
  {
    height + YOffset - gy
  }

  function SafeZ(t: Tool): Cmd
  {
    Move(Linear, None, None, Some(Fixed(t.zTravel)), Some(Plain(t.feedRateZ)), SafeHeightNote)
  }

  function MoveTo(p: Point, height: real, t: Tool): Cmd
  {
    Move(Rapid, Some(Fixed(p.x)), Some(Fixed(FlipY(p.y, height))), None, Some(Plain(t.feedRateXY)), PointNote)
  }

  function Plunge(t: Tool): Cmd
  {
    Move(Linear, None, None, Some(Fixed(t.zPoint)), Some(Plain(t.feedRateZ)), MarkNote)
  }

  function Lift(t: Tool): Cmd
  {
    Move(Linear, None, None, Some(Fixed(t.zTravel)), Some(Plain(t.feedRateZ)), LiftNote)
  }

  function Park(height: real, t: Tool): Cmd
  {
    Move(Rapid, Some(Literal(1)), Some(Fixed(height - 1.0)), Some(Fixed(t.zTravel + 10.0)),
         Some(Plain(t.feedRateXY)), ParkingNote)
  }

  function Preamble(t: Tool): seq<Cmd>
  {
    [SetUnitsMm, AbsolutePositioning, HomeAllAxes, SafeZ(t)]
  }

  /** Move over one point, mark it, lift again. */
  function Visit(p: Point, height: real, t: Tool): seq<Cmd>
  {
    [MoveTo(p, height, t), Plunge(t), Lift(t)]
  }

  /** The visits of the points in order: three lines per point. */
  function Visits(ps: seq<Point>, height: real, t: Tool): (cmds: seq<Cmd>)
    ensures |cmds| == 3 * |ps|
  {
    if ps == [] then [] else Visits(ps[..|ps| - 1], height, t) + Visit(ps[|ps| - 1], height, t)
  }

  function Trailer(height: real, t: Tool): seq<Cmd>
  {
    [ Park(height, t),
      Move(Linear, Some(Literal(0)), Some(Literal(550)), None, None, NoNote),
      Move(Linear, None, None, Some(Literal(0)), None, NoNote),
      EndProgram ]
  }

  /** The program for one bin: eight fixed lines and three per point. */
  function Program(ps: seq<Point>, height: real, t: Tool): (cmds: seq<Cmd>)
    ensures |cmds| == 8 + 3 * |ps|
  {
    Preamble(t) + Visits(ps, height, t) + Trailer(height, t)
  }

  /** The Y flip is undone by UnflipY, in both directions. */
  lemma FlipRoundTrip(y: real, gy: real, height: real)
    ensures UnflipY(FlipY(y, height), height) == y
    ensures FlipY(UnflipY(gy, height), height) == gy
  {
  }

  /** The flip reverses the vertical order and maps the plotter's height
      range (0, height) onto (50, height + 50). */
  lemma FlipReversesOrder(y1: real, y2: real, height: real)
    requires y1 < y2
    ensures FlipY(y1, height) > FlipY(y2, height)
    ensures 0.0 < y1 && y2 < height ==> YOffset < FlipY(y2, height) && FlipY(y1, height) < height + YOffset
  {
  }

  /** The triplet of point i sits at positions 3i, 3i+1 and 3i+2. */
  lemma {:induction false} VisitsAt(ps: seq<Point>, height: real, t: Tool, i: int)
    requires 0 <= i < |ps|
    ensures |Visits(ps, height, t)| == 3 * |ps|
    ensures Visits(ps, height, t)[3 * i] == MoveTo(ps[i], height, t)
    ensures Visits(ps, height, t)[3 * i + 1] == Plunge(t)
    ensures Visits(ps, height, t)[3 * i + 2] == Lift(t)
  {
    var init := ps[..|ps| - 1];
    if i < |ps| - 1 {
      VisitsAt(init, height, t, i);
    }
  }

  /** A bin of k points gives a program of 8 + 3k lines: the four preamble
      lines first and the four trailer lines last. */
  lemma ProgramShape(ps: seq<Point>, height: real, t: Tool)
    ensures |Program(ps, height, t)| == 8 + 3 * |ps|
    ensures Program(ps, height, t)[..4] == [SetUnitsMm, AbsolutePositioning, HomeAllAxes, SafeZ(t)]
    ensures Program(ps, height, t)[4 + 3 * |ps|..] == Trailer(height, t)
  {
  }

  /** Point i is visited by lines 4 + 3i (move over it, at the flipped Y),
      5 + 3i (plunge to zPoint) and 6 + 3i (lift to zTravel). */
  lemma ProgramVisit(ps: seq<Point>, height: real, t: Tool, i: int)
    requires 0 <= i < |ps|
    ensures |Program(ps, height, t)| == 8 + 3 * |ps|
    ensures Program(ps, height, t)[4 + 3 * i] == MoveTo(ps[i], height, t)
    ensures Program(ps, height, t)[4 + 3 * i + 1] == Plunge(t)
    ensures Program(ps, height, t)[4 + 3 * i + 2] == Lift(t)
  {
    VisitsAt(ps, height, t, i);
    var v := Visits(ps, height, t);
    assert Program(ps, height, t) == Preamble(t) + v + Trailer(height, t);
    assert Program(ps, height, t)[4 + 3 * i] == v[3 * i];
    assert Program(ps, height, t)[4 + 3 * i + 1] == v[3 * i + 1];
    assert Program(ps, height, t)[4 + 3 * i + 2] == v[3 * i + 2];
  }

  /** The tool only travels sideways at the safe height: the line before
      every move over a point raises or keeps Z at zTravel. */
  lemma TravelAtSafeHeight(ps: seq<Point>, height: real, t: Tool, i: int)
    requires 0 <= i < |ps|
    ensures |Program(ps, height, t)| == 8 + 3 * |ps|
    ensures Program(ps, height, t)[3 + 3 * i].Move?
    ensures Program(ps, height, t)[3 + 3 * i].z == Some(Fixed(t.zTravel))
    ensures Program(ps, height, t)[3 + 3 * i].x == None && Program(ps, height, t)[3 + 3 * i].y == None
  {
    ProgramShape(ps, height, t);
    if i > 0 {
      ProgramVisit(ps, height, t, i - 1);
      assert 3 + 3 * i == 4 + 3 * (i - 1) + 2;
    }
  }

  /** The (x, y) positions of a list of points. */
  function Positions(ps: seq<Point>): (r: seq<(real, real)>)
    ensures |r| == |ps|
  {
    if ps == [] then [] else Positions(ps[..|ps| - 1]) + [(ps[|ps| - 1].x, ps[|ps| - 1].y)]
  }

  /** The sampled position a move-over-point line goes to. */
  function TargetOf(c: Cmd, height: real): (real, real)
  {
    match c
    case Move(_, Some(x), Some(gy), _, _, _) => (x.Value(), UnflipY(gy.Value(), height))
    case _ => (0.0, 0.0)
  }

  /** Reads the sampled positions back from the per-point part of a program,
      one triplet at a time. */
  function DecodeVisits(body: seq<Cmd>, height: real): seq<(real, real)>
  {
    if |body| < 3 then [] else DecodeVisits(body[..|body| - 3], height) + [TargetOf(body[|body| - 3], height)]
  }

  /** Reads the sampled positions back from a whole program. */
  function Decode(program: seq<Cmd>, height: real): seq<(real, real)>
  {
    if |program| < 8 then [] else DecodeVisits(program[4..|program| - 4], height)
  }

  lemma {:induction false} DecodeVisitsOf(ps: seq<Point>, height: real, t: Tool)
    ensures DecodeVisits(Visits(ps, height, t), height) == Positions(ps)
  {
    if ps != [] {
      var init := ps[..|ps| - 1];
      var body := Visits(ps, height, t);
      assert body[..|body| - 3] == Visits(init, height, t);
      assert body[|body| - 3] == MoveTo(ps[|ps| - 1], height, t);
      DecodeVisitsOf(init, height, t);
    }
  }

  /** Given the plotter height, a program determines the positions of the
      bin's points, in order: nothing is lost by the Y flip. */
  lemma DecodeProgram(ps: seq<Point>, height: real, t: Tool)
    ensures Decode(Program(ps, height, t), height) == Positions(ps)
  {
    var p := Program(ps, height, t);
    ProgramShape(ps, height, t);
    assert p[4..|p| - 4] == Visits(ps, height, t);
    DecodeVisitsOf(ps, height, t);
  }
}
