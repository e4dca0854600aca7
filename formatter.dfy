/** Command formatter: the text of each program line and of the whole
    document (sketch.js:193-217).  Coordinates and heights are written with
    toFixed(3), feed rates with JavaScript's default number-to-text, and the
    template's own integers (X1, X0, Y550, Z0) as written.  The lines are
    joined with '\n'. */
module Formatter {
  import opened Toolpath

  function DigitChar(d: int): (c: char)
    requires 0 <= d < 10
    ensures '0' <= c <= '9'
  {
    ('0' as int + d) as char
  }

  function DigitValue(c: char): int
  {
    c as int - '0' as int
  }

  predicate IsDigits(s: string) {
    forall k :: 0 <= k < |s| ==> '0' <= s[k] <= '9'
  }

  /** The decimal digits of n, most significant first, without leading zeros. */
  function Digits(n: nat): (s: string)
    ensures |s| >= 1 && IsDigits(s)
  {
    if n < 10 then [DigitChar(n)] else Digits(n / 10) + [DigitChar(n % 10)]
  }

  /** The number a string of decimal digits stands for. */
  function ParseDigits(s: string): int
  {
    if s == [] then 0 else ParseDigits(s[..|s| - 1]) * 10 + DigitValue(s[|s| - 1])
  }

  lemma {:induction false} ParseDigitsOf(n: nat)
    ensures ParseDigits(Digits(n)) == n
  {
    var s := Digits(n);
    if n >= 10 {
      assert s[..|s| - 1] == Digits(n / 10);
      ParseDigitsOf(n / 10);
    }
  }

  /** An integer as JavaScript writes it: a minus sign exactly when n is
      negative, then the digits. */
  function IntText(n: int): (s: string)
    ensures |s| >= 1 && (s[0] == '-' <==> n < 0)
  {
    if n < 0 then "-" + Digits(-n) else Digits(n)
  }

  /** |v|. */
  function Magnitude(v: real): (m: real)
    ensures m >= 0.0 && (m == v || m == -v)
  {
    if v < 0.0 then -v else v
  }

  /** The n of toFixed(3): the integer nearest to |v| * 1000, the larger
      one on a tie. */
  function Thousandths(v: real): nat
  {
    (Magnitude(v) * 1000.0 + 0.5).Floor
  }

  /** n as exactly three digits, with leading zeros. */
  function Pad3(n: nat): (s: string)
    requires n < 1000
    ensures |s| == 3 && IsDigits(s)
  {
    [DigitChar(n / 10 / 10), DigitChar(n / 10 % 10), DigitChar(n % 10)]
  }

  /** toFixed(3) of v, taken on the exact value: a minus sign when v < 0,
      the integer part, a point and three decimals. */
  function Fixed3(v: real): (s: string)
    ensures |s| >= 5 && (s[0] == '-' <==> v < 0.0)
    ensures s[|s| - 4] == '.' && IsDigits(s[|s| - 3..])
  {
    var n := Thousandths(v);
    (if v < 0.0 then "-" else "") + Digits(n / 1000) + "." + Pad3(n % 1000)
  }

  /** The sign flag and the thousandths written by a toFixed(3) text. */
  function ParseFixed3(s: string): (bool, int)
  {
    var negative := |s| > 0 && s[0] == '-';
    var body := if negative then s[1..] else s;
    if |body| < 5 then (negative, 0)
    else (negative, ParseDigits(body[..|body| - 4]) * 1000 + ParseDigits(body[|body| - 3..]))
  }

  /** The rounding is the one toFixed prescribes: no integer is nearer to
      |v| * 1000 than Thousandths(v), and on a tie it is the larger one. */
  lemma ThousandthsNearest(v: real, m: int)
    ensures Magnitude(Thousandths(v) as real - Magnitude(v) * 1000.0) <= Magnitude(m as real - Magnitude(v) * 1000.0)
    ensures Magnitude(Thousandths(v) as real - Magnitude(v) * 1000.0) == Magnitude(m as real - Magnitude(v) * 1000.0) ==>
              m <= Thousandths(v)
  {
  }

  lemma DigitRoundTrip(d: int)
    requires 0 <= d < 10
    ensures DigitValue(DigitChar(d)) == d
  {
  }

  lemma ParseThree(a: int, b: int, c: int)
    requires 0 <= a < 10 && 0 <= b < 10 && 0 <= c < 10
    ensures ParseDigits([DigitChar(a), DigitChar(b), DigitChar(c)]) == (a * 10 + b) * 10 + c
  {
    var s := [DigitChar(a), DigitChar(b), DigitChar(c)];
    DigitRoundTrip(a);
    DigitRoundTrip(b);
    DigitRoundTrip(c);
    assert s[..2] == [DigitChar(a), DigitChar(b)];
    assert s[..2][..1] == [DigitChar(a)];
    assert [DigitChar(a)][..0] == [];
    assert ParseDigits([DigitChar(a)]) == a;
    assert ParseDigits(s[..2]) == a * 10 + b;
    assert ParseDigits(s) == ParseDigits(s[..2]) * 10 + c;
  }

  lemma Pad3Parse(n: nat)
    requires n < 1000
    ensures ParseDigits(Pad3(n)) == n
  {
    var q := n / 10;
    ParseThree(q / 10, q % 10, n % 10);
  }

  lemma ConcatAssoc(a: string, b: string, c: string)
    ensures a + (b + c) == (a + b) + c
  {
  }

  /** The parts of a toFixed(3) text, taken apart again. */
  lemma ParseFixed3Parts(negative: bool, whole: nat, frac: nat)
    requires frac < 1000
    ensures ParseFixed3((if negative then "-" else "") + Digits(whole) + "." + Pad3(frac))
              == (negative, whole * 1000 + frac)
  {
    var sign: string := if negative then "-" else "";
    var w, f := Digits(whole), Pad3(frac);
    var body := w + "." + f;
    ConcatAssoc(sign, w + ".", f);
    ConcatAssoc(sign, w, ".");
    var text := sign + body;
    assert sign + w + "." + f == text;
    assert |body| >= 5;
    assert body[..|body| - 4] == w;
    assert body[|body| - 3..] == f;
    if negative {
      assert text[0] == '-' && text[1..] == body;
    } else {
      assert text == body && text[0] == w[0] != '-';
    }
    var r := ParseFixed3(text);
    assert r.0 == negative;
    assert r.1 == ParseDigits(w) * 1000 + ParseDigits(f);
    ParseDigitsOf(whole);
    Pad3Parse(frac);
  }

  /** Reading a toFixed(3) text back gives its sign and its thousandths. */
  lemma Fixed3RoundTrip(v: real)
    ensures ParseFixed3(Fixed3(v)) == (v < 0.0, Thousandths(v))
  {
    var n := Thousandths(v);
    ParseFixed3Parts(v < 0.0, n / 1000, n % 1000);
  }

  /** A number that this formatter can write: a feed rate is written by
      JavaScript's default number-to-text, modelled here for whole numbers. */
  predicate Writable(n: Num) {
    n.Plain? ==> n.v.Floor as real == n.v
  }

  /** The text of a number: a minus sign exactly when it is negative. */
  function NumText(n: Num): (s: string)
    requires Writable(n)
    ensures |s| >= 1 && (s[0] == '-' <==> n.Value() < 0.0)
  {
    match n
    case Fixed(v) => Fixed3(v)
    case Plain(v) => IntText(v.Floor)
    case Literal(k) => IntText(k)
  }

  predicate OptWritable(n: Option<Num>) {
    n.Some? ==> Writable(n.value)
  }

  /** " X<number>", or nothing when the axis is not set. */
  function Word(letter: string, n: Option<Num>): string
    requires OptWritable(n)
  {
    if n.None? then "" else " " + letter + NumText(n.value)
  }

  predicate CmdWritable(c: Cmd) {
    c.Move? ==> OptWritable(c.x) && OptWritable(c.y) && OptWritable(c.z) && OptWritable(c.feed)
  }

  /** The comment text of a move line. */
  function NoteText(n: Note): string
  {
    match n
    case NoNote => ""
    case SafeHeightNote => "Move to safe Z travel height"
    case PointNote => "Move to point"
    case MarkNote => "Plunge/Mark point"
    case LiftNote => "Lift tool"
    case ParkingNote => "Move to parking position"
  }

  /** The text of one line: it opens with its command word, M02 for the
      end of the program and a G word for every other line. */
  function Render(c: Cmd): (s: string)
    requires CmdWritable(c)
    ensures |s| >= 3 && s[0] == (if c.EndProgram? then 'M' else 'G')
  {
    if c.Move? then MoveText(c) else FixedText(c)
  }

  /** The four lines that carry no number are written as they stand: the
      command word, then its comment. */
  function FixedText(c: Cmd): (s: string)
    requires !c.Move?
    ensures |s| >= 6 && s[0] == (if c.EndProgram? then 'M' else 'G') && s[3] == ' ' && s[4] == ';'
  {
    match c
    case SetUnitsMm => "G21 ; Set units to millimeters"
    case AbsolutePositioning => "G90 ; Use absolute positioning"
    case HomeAllAxes => "G28 ; Home all axes"
    case EndProgram => "M02 ; End of program"
  }

  /** A move: G00 or G01, the words of the axes it sets, then its comment. */
  function MoveText(c: Cmd): (s: string)
    requires c.Move? && CmdWritable(c)
    ensures |s| >= 3 && s[..3] == (if c.motion == Rapid then "G00" else "G01")
  {
    (if c.motion == Rapid then "G00" else "G01")
      + Word("X", c.x) + Word("Y", c.y) + Word("Z", c.z) + Word("F", c.feed)
      + (if c.note == NoNote then "" else " ; " + NoteText(c.note))
  }

  predicate AllWritable(cmds: seq<Cmd>) {
    forall k :: 0 <= k < |cmds| ==> CmdWritable(cmds[k])
  }

  function RenderAll(cmds: seq<Cmd>): (lines: seq<string>)
    requires AllWritable(cmds)
    ensures |lines| == |cmds|
  {
    if cmds == [] then [] else RenderAll(cmds[..|cmds| - 1]) + [Render(cmds[|cmds| - 1])]
  }

  /** Array.prototype.join with '\n': the text opens with the first line,
      followed by a line break when there are more. */
  function Join(lines: seq<string>): (s: string)
    ensures |lines| >= 1 ==> |s| >= |lines[0]| && s[..|lines[0]|] == lines[0]
    ensures |lines| >= 2 ==> |s| > |lines[0]| && s[|lines[0]|] == '\n'
  {
    if lines == [] then ""
    else if |lines| == 1 then lines[0]
    else lines[0] + "\n" + Join(lines[1..])
  }

  /** The lines of a text: the pieces between line breaks. */
  function Split(s: string): (lines: seq<string>)
    ensures |lines| >= 1
  {
    if s == [] then [""]
    else
      var rest := Split(s[1..]);
      if s[0] == '\n' then [""] + rest else [[s[0]] + rest[0]] + rest[1..]
  }

  /** The text of the program for one bin: it opens with the line of the
      first command. */
  function Document(cmds: seq<Cmd>): (s: string)
    requires AllWritable(cmds)
    ensures |cmds| >= 1 ==> |s| >= |Render(cmds[0])| && s[..|Render(cmds[0])|] == Render(cmds[0])
  {
    if cmds == [] then Join(RenderAll(cmds))
    else
      RenderAllAt(cmds, 0);
      Join(RenderAll(cmds))
  }

  /** s holds no line break. */
  predicate NoBreak(s: string) {
    '\n' !in s
  }

  lemma NoBreakConcat(a: string, b: string)
    requires NoBreak(a) && NoBreak(b)
    ensures NoBreak(a + b)
  {
    forall k | 0 <= k < |a + b|
      ensures (a + b)[k] != '\n'
    {
      if k < |a| {
        assert (a + b)[k] == a[k];
      } else {
        assert (a + b)[k] == b[k - |a|];
      }
    }
  }

  lemma NumTextNoBreak(n: Num)
    requires Writable(n)
    ensures NoBreak(NumText(n))
  {
    match n
    case Fixed(v) =>
      var sign: string := if v < 0.0 then "-" else "";
      var whole := Digits(Thousandths(v) / 1000);
      NoBreakConcat(sign, whole);
      NoBreakConcat(sign + whole, ".");
      NoBreakConcat(sign + whole + ".", Pad3(Thousandths(v) % 1000));
    case Plain(v) =>
      if v.Floor < 0 { NoBreakConcat("-", Digits(-v.Floor)); }
    case Literal(k) =>
      if k < 0 { NoBreakConcat("-", Digits(-k)); }
  }

  lemma WordNoBreak(letter: string, n: Option<Num>)
    requires NoBreak(letter) && OptWritable(n)
    ensures NoBreak(Word(letter, n))
  {
    if n.Some? {
      NumTextNoBreak(n.value);
      NoBreakConcat(" ", letter);
      NoBreakConcat(" " + letter, NumText(n.value));
    }
  }

  lemma NoteNoBreak(n: Note)
    ensures NoBreak(NoteText(n))
  {
  }

  lemma SetUnitsNoBreak()
    ensures NoBreak(Render(SetUnitsMm))
  {
  }

  lemma AbsolutePositioningNoBreak()
    ensures NoBreak(Render(AbsolutePositioning))
  {
  }

  lemma HomeNoBreak()
    ensures NoBreak(Render(HomeAllAxes))
  {
  }

  lemma EndNoBreak()
    ensures NoBreak(Render(EndProgram))
  {
  }

  /** The text of a move line holds no line break. */
  lemma MoveNoBreak(c: Cmd)
    requires c.Move? && CmdWritable(c)
    ensures NoBreak(Render(c))
  {
    var head: string := if c.motion == Rapid then "G00" else "G01";
    var x, y, z, f := Word("X", c.x), Word("Y", c.y), Word("Z", c.z), Word("F", c.feed);
    var tail: string := if c.note == NoNote then "" else " ; " + NoteText(c.note);
    assert Render(c) == head + x + y + z + f + tail;
    WordNoBreak("X", c.x);
    WordNoBreak("Y", c.y);
    WordNoBreak("Z", c.z);
    WordNoBreak("F", c.feed);
    NoteNoBreak(c.note);
  }

  /** No rendered line contains a line break. */
  lemma RenderNoBreak(c: Cmd)
    requires CmdWritable(c)
    ensures NoBreak(Render(c))
  {
    match c
    case SetUnitsMm => SetUnitsNoBreak();
    case AbsolutePositioning => AbsolutePositioningNoBreak();
    case HomeAllAxes => HomeNoBreak();
    case EndProgram => EndNoBreak();
    case Move(_, _, _, _, _, _) => MoveNoBreak(c);
  }

  lemma {:induction false} SplitSingle(a: string)
    requires NoBreak(a)
    ensures Split(a) == [a]
  {
    if a != [] {
      SplitSingle(a[1..]);
      assert [a[0]] + a[1..] == a;
    }
  }

  lemma {:induction false} SplitBreak(a: string, b: string)
    requires NoBreak(a)
    ensures Split(a + "\n" + b) == [a] + Split(b)
  {
    var s := a + "\n" + b;
    if a == [] {
      assert s[1..] == b;
    } else {
      assert s[0] == a[0];
      assert s[1..] == a[1..] + "\n" + b;
      SplitBreak(a[1..], b);
      assert [a[0]] + a[1..] == a;
    }
  }

  /** Splitting a joined text at its line breaks gives back the lines,
      provided none of them contains a break. */
  lemma {:induction false} SplitJoin(lines: seq<string>)
    requires |lines| >= 1
    requires forall k :: 0 <= k < |lines| ==> NoBreak(lines[k])
    ensures Split(Join(lines)) == lines
  {
    if |lines| == 1 {
      SplitSingle(lines[0]);
    } else {
      SplitBreak(lines[0], Join(lines[1..]));
      SplitJoin(lines[1..]);
    }
  }

  lemma {:induction false} RenderAllAt(cmds: seq<Cmd>, k: int)
    requires AllWritable(cmds) && 0 <= k < |cmds|
    ensures RenderAll(cmds)[k] == Render(cmds[k])
  {
    if k < |cmds| - 1 {
      RenderAllAt(cmds[..|cmds| - 1], k);
    }
  }

  /** The text of a non-empty list of commands has one line per command,
      each the rendering of that command. */
  lemma DocumentLines(cmds: seq<Cmd>)
    requires AllWritable(cmds) && |cmds| >= 1
    ensures |Split(Document(cmds))| == |cmds|
    ensures forall k :: 0 <= k < |cmds| ==> Split(Document(cmds))[k] == Render(cmds[k])
  {
    var lines := RenderAll(cmds);
    forall k | 0 <= k < |lines|
      ensures NoBreak(lines[k]) && lines[k] == Render(cmds[k])
    {
      RenderAllAt(cmds, k);
      RenderNoBreak(cmds[k]);
    }
    SplitJoin(lines);
  }

  /** Whole-number feed rates make every line of a program writable. */
  lemma {:induction false} VisitsWritable(ps: seq<Sampler.Point>, height: real, t: Tool)
    requires t.feedRateXY.Floor as real == t.feedRateXY && t.feedRateZ.Floor as real == t.feedRateZ
    ensures AllWritable(Visits(ps, height, t))
  {
    if ps != [] {
      VisitsWritable(ps[..|ps| - 1], height, t);
      AllWritableConcat(Visits(ps[..|ps| - 1], height, t), Visit(ps[|ps| - 1], height, t));
    }
  }

  lemma AllWritableConcat(a: seq<Cmd>, b: seq<Cmd>)
    requires AllWritable(a) && AllWritable(b)
    ensures AllWritable(a + b)
  {
    forall k | 0 <= k < |a + b|
      ensures CmdWritable((a + b)[k])
    {
      if k < |a| {
        assert (a + b)[k] == a[k];
      } else {
        assert (a + b)[k] == b[k - |a|];
      }
    }
  }

  lemma ProgramWritable(ps: seq<Sampler.Point>, height: real, t: Tool)
    requires t.feedRateXY.Floor as real == t.feedRateXY && t.feedRateZ.Floor as real == t.feedRateZ
    ensures AllWritable(Program(ps, height, t))
  {
    VisitsWritable(ps, height, t);
    var pre, mid, post := Preamble(t), Visits(ps, height, t), Trailer(height, t);
    assert AllWritable(pre) && AllWritable(post);
    AllWritableConcat(pre, mid);
    AllWritableConcat(pre + mid, post);
  }

  /** The document of a bin with k points has 8 + 3k lines, line i being the
      text of command i of the program. */
  lemma ProgramDocumentLines(ps: seq<Sampler.Point>, height: real, t: Tool)
    requires t.feedRateXY.Floor as real == t.feedRateXY && t.feedRateZ.Floor as real == t.feedRateZ
    ensures AllWritable(Program(ps, height, t))
    ensures |Program(ps, height, t)| == 8 + 3 * |ps|
    ensures |Split(Document(Program(ps, height, t)))| == 8 + 3 * |ps|
    ensures forall k :: 0 <= k < 8 + 3 * |ps| ==>
              Split(Document(Program(ps, height, t)))[k] == Render(Program(ps, height, t)[k])
  {
    ProgramWritable(ps, height, t);
    ProgramShape(ps, height, t);
    DocumentLines(Program(ps, height, t));
  }
}
