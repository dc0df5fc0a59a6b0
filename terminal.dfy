/**
 * How a terminal reads the cursor sequences built in CursorControl: a small
 * interpreter for the ECMA-48 control functions CUU, CUD, CUF, CUB and CUP
 * (sections 8.3.22, 8.3.19, 8.3.20, 8.3.18, 8.3.21) acting on a zero-based
 * cursor position. It is the reference against which the builders are proved:
 * each builder moves the cursor exactly as its name says.
 */
module Terminal {
  import opened Wrappers
  import opened Numerals
  import opened Catalogue
  import opened CursorControl

  /** A zero-based cursor position on a grid without edges. */
  datatype Point = Point(col: int, line: int)

  /** One control sequence: its numeric parameters and its final character. */
  datatype Command = Command(params: seq<nat>, final: char)

  /** A parameter string `n (; n)*` at the head of `t`, and what follows it. */
  function ParseParams(t: string): (r: Option<(seq<nat>, string)>)
    ensures r.Some? ==> |r.value.0| >= 1 && |r.value.1| < |t|
    decreases |t|
  {
    var k := Span(t, 10);
    if k == 0 then None
    else
      var n := Value(t[..k], 10);
      if k < |t| && t[k] == ';' then
        match ParseParams(t[k + 1..])
        case None => None
        case Some((ps, u)) => Some(([n] + ps, u))
      else
        Some(([n], t[k..]))
  }

  /** The control sequence at the head of `s`, and what follows it. */
  function ParseCommand(s: string): (r: Option<(Command, string)>)
    ensures r.Some? ==> |r.value.1| < |s|
  {
    if |s| < 2 || s[..2] != CSI then None
    else
      match ParseParams(s[2..])
      case None => None
      case Some((ps, u)) => if u == [] then None else Some((Command(ps, u[0]), u[1..]))
  }

  /** A parameter of 0 stands for the default, 1. */
  function Param(p: nat): nat
  {
    if p == 0 then 1 else p
  }

  /** The effect of one command; None for anything outside the five cursor functions. */
  function Perform(at: Point, c: Command): Option<Point>
  {
    if |c.params| == 1 then
      var n := Param(c.params[0]);
      match c.final
      case 'A' => Some(Point(at.col, at.line - n))
      case 'B' => Some(Point(at.col, at.line + n))
      case 'C' => Some(Point(at.col + n, at.line))
      case 'D' => Some(Point(at.col - n, at.line))
      case _ => None
    else if |c.params| == 2 && c.final == 'H' then
      Some(Point(Param(c.params[1]) - 1, Param(c.params[0]) - 1))
    else
      None
  }

  /** Where the cursor ends after the terminal reads all of `s`; None if it cannot read it. */
  function Run(at: Point, s: string): Option<Point>
    decreases |s|
  {
    if s == [] then Some(at)
    else
      match ParseCommand(s)
      case None => None
      case Some((c, rest)) =>
        match Perform(at, c)
        case None => None
        case Some(next) => Run(next, rest)
  }

  lemma {:induction false} ParseOneParam(n: nat, rest: string)
    requires rest == [] || (!IsDigit(rest[0], 10) && rest[0] != ';')
    ensures ParseParams(Digits(n, 10) + rest) == Some(([n], rest))
  {
    var d := Digits(n, 10);
    var t := d + rest;
    SpanStops(d, rest, 10);
    assert t[..|d|] == d;
    assert t[|d|..] == rest;
    ValueOfDigits(n, 10);
  }

  /** A digit string followed by `;` reads as its value and the parameters after it. */
  lemma {:induction false} ParseParamsMore(d: string, tail: string, ps: seq<nat>, rest: string)
    requires d != [] && AllDigits(d, 10)
    requires ParseParams(tail) == Some((ps, rest))
    ensures ParseParams(d + ([';'] + tail)) == Some(([Value(d, 10)] + ps, rest))
  {
    var t := d + ([';'] + tail);
    SpanStops(d, [';'] + tail, 10);
    assert t[..|d|] == d;
    assert t[|d|] == ';';
    assert t[|d| + 1..] == tail;
  }

  lemma {:induction false} ParseTwoParams(a: nat, b: nat, rest: string)
    requires rest == [] || (!IsDigit(rest[0], 10) && rest[0] != ';')
    ensures ParseParams(Digits(a, 10) + ([';'] + (Digits(b, 10) + rest))) == Some(([a, b], rest))
  {
    ParseOneParam(b, rest);
    ValueOfDigits(a, 10);
    ParseParamsMore(Digits(a, 10), Digits(b, 10) + rest, [b], rest);
    assert [a] + [b] == [a, b];
  }

  /** The terminal reads the first command and goes on with the rest. */
  lemma RunStep(at: Point, s: string, c: Command, rest: string, next: Point)
    requires ParseCommand(s) == Some((c, rest)) && Perform(at, c) == Some(next)
    ensures Run(at, s) == Run(next, rest)
  {
  }

  /** A control sequence reads as its parameters and the character after them. */
  lemma {:induction false} ParseCsi(t: string, ps: seq<nat>, f: char, rest: string)
    requires ParseParams(t) == Some((ps, [f] + rest))
    ensures ParseCommand(CSI + t) == Some((Command(ps, f), rest))
  {
    var s := CSI + t;
    assert s[..2] == CSI;
    assert s[2..] == t;
    assert ([f] + rest)[1..] == rest;
  }

  /** A relative move reads back as one command with its count and final byte. */
  lemma {:induction false} ParseRelative(n: nat, f: char, rest: string)
    requires n > 0 && !IsDigit(f, 10) && f != ';'
    ensures ParseCommand(Relative(n, f) + rest) == Some((Command([n], f), rest))
  {
    assert Relative(n, f) + rest == CSI + (Digits(n, 10) + ([f] + rest));
    ParseOneParam(n, [f] + rest);
    ParseCsi(Digits(n, 10) + ([f] + rest), [n], f, rest);
  }

  datatype Direction = Up | Down | Left | Right

  /** The builder of each direction. */
  function Builder(d: Direction, n: int): string
  {
    match d
    case Up => UpBy(n)
    case Down => DownBy(n)
    case Left => LeftBy(n)
    case Right => RightBy(n)
  }

  /** The final byte of each direction's relative move. */
  function Final(d: Direction): char
  {
    match d
    case Up => 'A'
    case Down => 'B'
    case Right => 'C'
    case Left => 'D'
  }

  function Opposite(d: Direction): Direction
  {
    match d
    case Up => Down
    case Down => Up
    case Left => Right
    case Right => Left
  }

  /** Where a move of n cells in direction d takes the cursor. */
  function Shift(at: Point, d: Direction, n: int): Point
  {
    match d
    case Up => Point(at.col, at.line - n)
    case Down => Point(at.col, at.line + n)
    case Left => Point(at.col - n, at.line)
    case Right => Point(at.col + n, at.line)
  }

  /** The terminal reads a relative move and goes on with what follows it. */
  lemma {:induction false} RunRelative(at: Point, n: nat, f: char, s: string, rest: string, next: Point)
    requires n > 0 && !IsDigit(f, 10) && f != ';'
    requires s == Relative(n, f) + rest
    requires Perform(at, Command([n], f)) == Some(next)
    ensures Run(at, s) == Run(next, rest)
  {
    ParseRelative(n, f, rest);
    RunStep(at, s, Command([n], f), rest, next);
  }

  /** A positive count emits the direction's own relative move. */
  lemma BuilderPositive(d: Direction, n: int)
    requires n > 0
    ensures Builder(d, n) == Relative(n, Final(d))
  {
    match d
    case Up =>
    case Down =>
    case Left =>
    case Right =>
  }

  /** A negative count emits the opposite direction's relative move, with the count negated. */
  lemma BuilderNegative(d: Direction, n: int)
    requires n < 0
    ensures Builder(d, n) == Relative(-n, Final(Opposite(d)))
  {
    match d
    case Up => assert UpBy(n) == DownBy(-n);
    case Down => assert DownBy(n) == UpBy(-n);
    case Left => assert LeftBy(n) == RightBy(-n);
    case Right => assert RightBy(n) == LeftBy(-n);
  }

  /** The terminal moves by the count in the direction the final byte names. */
  lemma PerformFinal(at: Point, d: Direction, n: nat)
    ensures Perform(at, Command([n], Final(d))) == Some(Shift(at, d, Param(n)))
  {
  }

  /** Moving -n cells the opposite way ends where moving n cells this way does. */
  lemma ShiftOpposite(at: Point, d: Direction, n: int)
    ensures Shift(at, Opposite(d), -n) == Shift(at, d, n)
  {
    match d
    case Up =>
    case Down =>
    case Left =>
    case Right =>
  }

  lemma {:induction false} MovesForward(at: Point, d: Direction, n: int, rest: string)
    requires n > 0
    ensures Run(at, Builder(d, n) + rest) == Run(Shift(at, d, n), rest)
  {
    BuilderPositive(d, n);
    PerformFinal(at, d, n);
    RunRelative(at, n, Final(d), Builder(d, n) + rest, rest, Shift(at, d, n));
  }

  lemma {:induction false} MovesBackward(at: Point, d: Direction, n: int, rest: string)
    requires n < 0
    ensures Run(at, Builder(d, n) + rest) == Run(Shift(at, d, n), rest)
  {
    BuilderNegative(d, n);
    PerformFinal(at, Opposite(d), -n);
    ShiftOpposite(at, d, n);
    RunRelative(at, -n, Final(Opposite(d)), Builder(d, n) + rest, rest, Shift(at, d, n));
  }

  /**
   * Every builder moves the cursor by its count in its own direction, and by
   * minus the count in the opposite one, whatever follows it.
   */
  lemma {:induction false} Moves(at: Point, d: Direction, n: int, rest: string)
    ensures Run(at, Builder(d, n) + rest) == Run(Shift(at, d, n), rest)
  {
    if n > 0 {
      MovesForward(at, d, n, rest);
    } else if n < 0 {
      MovesBackward(at, d, n, rest);
    } else {
      assert Builder(d, n) + rest == rest;
      assert Shift(at, d, n) == at;
    }
  }

  /** `MoveBy` shifts the cursor by exactly the given offsets. */
  lemma {:induction false} MoveByShifts(at: Point, p: Coordinates)
    ensures Run(at, MoveBy(p)) == Some(Point(at.col + p.Column(), at.line + p.Line()))
  {
    var mid := Shift(at, Down, p.Line());
    var last := Shift(mid, Right, p.Column());
    assert MoveBy(p) == Builder(Down, p.Line()) + Builder(Right, p.Column());
    Moves(at, Down, p.Line(), Builder(Right, p.Column()));
    assert Builder(Right, p.Column()) + [] == Builder(Right, p.Column());
    Moves(mid, Right, p.Column(), []);
    assert Run(last, []) == Some(last);
    assert last == Point(at.col + p.Column(), at.line + p.Line());
    assert Run(at, MoveBy(p)) == Run(mid, Builder(Right, p.Column())) == Run(last, []);
  }

  /** A CUP with one-based line and column reads back as one command. */
  lemma {:induction false} ParseMoveTo(p: Coordinates)
    requires p.Column() >= -1 && p.Line() >= -1
    ensures ParseCommand(MoveTo(p)) == Some((Command([p.Line() + 1, p.Column() + 1], 'H'), ""))
  {
    var line, col := p.Line() + 1, p.Column() + 1;
    var t := Digits(line, 10) + ([';'] + (Digits(col, 10) + "H"));
    assert MoveTo(p) == CSI + t;
    ParseTwoParams(line, col, "H");
    assert "H" == ['H'] + "";
    ParseCsi(t, [line, col], 'H', "");
  }

  /** The edge cell for -1, which CUP reads as parameter 0, that is 1. */
  function Edge(n: int): int
  {
    if n < 0 then 0 else n
  }

  /**
   * `MoveTo` puts the cursor at the given zero-based position, wherever it was.
   * A line or column of -1 is written as parameter 0 and lands on the first line or column.
   */
  lemma {:induction false} MoveToPlaces(at: Point, p: Coordinates)
    requires p.Column() >= -1 && p.Line() >= -1
    ensures p.Column() >= 0 && p.Line() >= 0 ==> Run(at, MoveTo(p)) == Some(Point(p.Column(), p.Line()))
    ensures Run(at, MoveTo(p)) == Some(Point(Edge(p.Column()), Edge(p.Line())))
  {
    var line, col := p.Line() + 1, p.Column() + 1;
    ParseMoveTo(p);
    assert Param(line) - 1 == Edge(p.Line()) && Param(col) - 1 == Edge(p.Column());
    RunStep(at, MoveTo(p), Command([line, col], 'H'), "", Point(Edge(p.Column()), Edge(p.Line())));
  }

  /** Below line -1 the line is written with a minus sign, which the interpreter rejects. */
  lemma {:induction false} MoveToAboveScreen(at: Point, p: Coordinates)
    requires p.Line() < -1
    ensures Run(at, MoveTo(p)) == None
  {
    var s := MoveTo(p);
    assert s[2] == '-';
    assert s[..2] == CSI;
    assert Span(s[2..], 10) == 0;
  }
}
