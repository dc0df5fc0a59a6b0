/**
 * Cursor movement builders. `UpBy`, `DownBy`, `LeftBy` and `RightBy` take a
 * signed count (default 1): zero moves nothing, a negative count hands the
 * negated count to the opposite direction, a positive count emits the
 * ECMA-48 relative move CUU (`ESC [ n A`, section 8.3.22), CUD (`B`, 8.3.19),
 * CUF (`C`, 8.3.20) or CUB (`D`, 8.3.18). `MoveTo` emits CUP (section 8.3.21)
 * and `MoveBy` composes a vertical and a horizontal step.
 */
module CursorControl {
  import opened Numerals
  import opened Catalogue

  /** The ECMA-48 relative move with a positive count `n` and final byte `f`. */
  function Relative(n: nat, f: char): (s: string)
    requires n > 0
  {
    CSI + (Decimal(n) + [f])
  }

  /** The measure of the mutual recursion: a negative count delegates once, to a positive one. */
  function Delegations(n: int): nat
  {
    if n < 0 then 1 else 0
  }

  function UpBy(n: int := 1): (s: string)
    ensures s == "" <==> n == 0
    ensures s != "" ==> |s| >= 4 && s[..2] == CSI && s[|s| - 1] == (if n > 0 then 'A' else 'B')
    decreases Delegations(n)
  {
    if n == 0 then "" else if n < 0 then DownBy(-n) else Relative(n, 'A')
  }

  function DownBy(n: int := 1): (s: string)
    ensures s == "" <==> n == 0
    ensures s != "" ==> |s| >= 4 && s[..2] == CSI && s[|s| - 1] == (if n > 0 then 'B' else 'A')
    decreases Delegations(n)
  {
    if n == 0 then "" else if n < 0 then UpBy(-n) else Relative(n, 'B')
  }

  function LeftBy(n: int := 1): (s: string)
    ensures s == "" <==> n == 0
    ensures s != "" ==> |s| >= 4 && s[..2] == CSI && s[|s| - 1] == (if n > 0 then 'D' else 'C')
    decreases Delegations(n)
  {
    if n == 0 then "" else if n < 0 then RightBy(-n) else Relative(n, 'D')
  }

  function RightBy(n: int := 1): (s: string)
    ensures s == "" <==> n == 0
    ensures s != "" ==> |s| >= 4 && s[..2] == CSI && s[|s| - 1] == (if n > 0 then 'C' else 'D')
    decreases Delegations(n)
  {
    if n == 0 then "" else if n < 0 then LeftBy(-n) else Relative(n, 'C')
  }

  /**
   * The argument of `moveTo` and `moveBy`: zero-based `{x, y}` or, under
   * the other names, `{col, row}`.
   */
  datatype Coordinates = XY(x: int, y: int) | ColRow(col: int, row: int)
  {
    function Column(): int
    {
      if XY? then x else col
    }

    function Line(): int
    {
      if XY? then y else row
    }
  }

  /** CUP: `ESC [ line ; column H`, both one-based, the line first. */
  function Position(line: int, column: int): (s: string)
    ensures |s| >= 6 && s[..2] == CSI && s[|s| - 1] == 'H'
  {
    CSI + (Decimal(line) + ([';'] + (Decimal(column) + "H")))
  }

  /** `moveTo`: a CUP to the zero-based coordinates, made one-based. */
  function MoveTo(p: Coordinates): (s: string)
    ensures |s| >= 6 && s[..2] == CSI && s[|s| - 1] == 'H'
  {
    Position(p.Line() + 1, p.Column() + 1)
  }

  /** The vertical step, then the horizontal one. */
  function MoveBy(p: Coordinates): (s: string)
    ensures s == "" <==> p.Column() == 0 && p.Line() == 0
  {
    DownBy(p.Line()) + RightBy(p.Column())
  }

  /** A count of zero moves nothing, in every direction. */
  lemma ZeroMovesNothing()
    ensures UpBy(0) == DownBy(0) == LeftBy(0) == RightBy(0) == ""
  {
  }

  /** A positive count is written in decimal between CSI and the direction's final byte. */
  lemma PositiveCount(n: int)
    requires n > 0
    ensures UpBy(n) == CSI + (Digits(n, 10) + "A")
    ensures DownBy(n) == CSI + (Digits(n, 10) + "B")
    ensures RightBy(n) == CSI + (Digits(n, 10) + "C")
    ensures LeftBy(n) == CSI + (Digits(n, 10) + "D")
  {
  }

  /** Without an argument each builder moves one cell. */
  lemma DefaultCount()
    ensures UpBy() == CSI + "1A" && DownBy() == CSI + "1B"
    ensures RightBy() == CSI + "1C" && LeftBy() == CSI + "1D"
  {
    assert Decimal(1) == "1";
  }

  /** A negative count moves the opposite way: the builders are mirror images. */
  lemma SignSymmetry(n: int)
    ensures UpBy(n) == DownBy(-n) && DownBy(n) == UpBy(-n)
    ensures LeftBy(n) == RightBy(-n) && RightBy(n) == LeftBy(-n)
  {
  }

  /** The `{x, y}` and `{col, row}` spellings of one position give the same output. */
  lemma SpellingsAgree(a: int, b: int)
    ensures MoveTo(XY(a, b)) == MoveTo(ColRow(a, b))
    ensures MoveBy(XY(a, b)) == MoveBy(ColRow(a, b))
  {
  }

  /** `moveTo({x: 3, y: 4})` addresses line 5, column 4. */
  lemma MoveToExample()
    ensures MoveTo(XY(3, 4)) == CSI + "5;4H"
  {
    assert Decimal(5) == "5" && Decimal(4) == "4";
    assert MoveTo(XY(3, 4)) == CSI + ("5" + (";" + ("4" + "H")));
  }

  /** `moveBy({x: 2, y: -1})` is one line up, then two columns right. */
  lemma MoveByExample()
    ensures MoveBy(XY(2, -1)) == DownBy(-1) + RightBy(2) == CSI + "1A" + CSI + "2C"
  {
    assert Decimal(1) == "1" && Decimal(2) == "2";
    assert DownBy(-1) == CSI + ("1" + "A") && RightBy(2) == CSI + ("2" + "C");
  }
}
