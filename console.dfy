/** The on-screen log console: lines of text drawn one under another
    from a cursor row, with the screen cleared and the cursor sent back to
    the top when the next line would run past the bottom edge. */
module Display {
  import opened Numeric

  /** An RGBA colour. */
  datatype Rgba = Rgba(r: bv8, g: bv8, b: bv8, a: bv8)

  const Black := Rgba(0, 0, 0, 255)
  const Yellow := Rgba(255, 255, 0, 255)
  const Red := Rgba(255, 0, 0, 255)

  /** The cursor row a new console starts at and returns to after a clear. */
  const Home: int16 := 20

  /** A drawing call the console makes on the display. */
  datatype Draw = FillScreen(color: Rgba) | WriteLine(x: int16, y: int16, msg: string, color: Rgba)

  /** Whether the next line, starting at cursor row `y`, would pass the
      height `h` (the sum is taken in `int16`, as in the source). */
  predicate Overflows(y: int16, lineH: int16, h: int16)
  {
    Wrap16(y as int + lineH as int) > h
  }

  /** The row a line is drawn on from cursor row `y`. */
  function Row(y: int16, lineH: int16, h: int16): int16
  {
    if Overflows(y, lineH, h) then Home else y
  }

  /** The cursor row after one line has been drawn from cursor row `y`. */
  function Next(y: int16, lineH: int16, h: int16): int16
  {
    Wrap16(Row(y, lineH, h) as int + lineH as int)
  }

  /** The drawing calls of one logged line. */
  function Drawn(y: int16, lineH: int16, h: int16, x: int16, msg: string, col: Rgba): seq<Draw>
  {
    (if Overflows(y, lineH, h) then [FillScreen(Black)] else []) + [WriteLine(x, Row(y, lineH, h), msg, col)]
  }

  /** A line drawn on a screen tall enough for one line below the home
      row ends on the screen, in the `int16` arithmetic of the source;
      the screen is cleared exactly when the line would not have fit. */
  lemma RowFits(y: int16, lineH: int16, h: int16)
    requires 0 <= lineH && Home as int + lineH as int <= h as int
    ensures Wrap16(Row(y, lineH, h) as int + lineH as int) <= h
    ensures Row(y, lineH, h) != y ==> Overflows(y, lineH, h)
  {
    if Overflows(y, lineH, h) {
      assert Wrap16(Home as int + lineH as int) as int == Home as int + lineH as int;
    }
  }

  /** Kept below the bottom edge, the cursor stays there: no `int16` sum
      wraps, the line drawn ends on the screen, and the next cursor row is
      again at most `h`. */
  lemma CursorStaysOnScreen(y: int16, lineH: int16, h: int16)
    requires 0 <= lineH && Home as int + lineH as int <= h as int && h as int + lineH as int < 0x8000
    requires y <= h
    ensures Row(y, lineH, h) as int + lineH as int <= h as int
    ensures Next(y, lineH, h) <= h
  {
    assert Wrap16(y as int + lineH as int) as int == y as int + lineH as int;
    assert Wrap16(Home as int + lineH as int) as int == Home as int + lineH as int;
  }

  /** The rows `k` consecutive lines are drawn on, from cursor row `y`. */
  function Rows(y: int16, lineH: int16, h: int16, k: nat): (rows: seq<int16>)
    ensures |rows| == k
    decreases k
  {
    if k == 0 then [] else [Row(y, lineH, h)] + Rows(Next(y, lineH, h), lineH, h, k - 1)
  }

  /** From any cursor row not below the bottom edge (the home row among
      them), every line of a run of lines ends on the screen. */
  lemma {:induction false} AllRowsFit(y: int16, lineH: int16, h: int16, k: nat)
    requires 0 <= lineH && Home as int + lineH as int <= h as int && h as int + lineH as int < 0x8000
    requires y <= h
    ensures forall i :: 0 <= i < k ==> Rows(y, lineH, h, k)[i] as int + lineH as int <= h as int
    decreases k
  {
    if k > 0 {
      CursorStaysOnScreen(y, lineH, h);
      AllRowsFit(Next(y, lineH, h), lineH, h, k - 1);
      var rows := Rows(y, lineH, h, k);
      assert rows[1..] == Rows(Next(y, lineH, h), lineH, h, k - 1);
      forall i | 0 <= i < k
        ensures rows[i] as int + lineH as int <= h as int
      {
        if i > 0 {
          assert rows[i] == rows[1..][i - 1];
        }
      }
    }
  }

  class Console {
    /** The drawing calls issued so far, in order. */
    var screen: seq<Draw>
    /** The base text colour. */
    const color: Rgba
    /** The left margin. */
    const x: int16
    /** The cursor row of the next line. */
    var y: int16
    /** The height of one line. */
    const lineH: int16

    /** `NewConsole`: left margin 10, cursor at the home row, lines 10
        pixels high. */
    constructor (c: Rgba)
      ensures screen == [] && color == c
      ensures x == 10 && y == Home && lineH == 10
    {
      screen := [];
      color := c;
      x := 10;
      y := 20;
      lineH := 10;
    }

    /** Draw `msg` in colour `col` on a display `h` pixels high: clear the
        screen and go back to the home row first if the line would pass
        the bottom edge, then draw and move the cursor down one line. */
    method Log(msg: string, col: Rgba, h: int16)
      modifies this
      ensures screen == old(screen) + Drawn(old(y), lineH, h, x, msg, col)
      ensures y == Next(old(y), lineH, h)
    {
      if Wrap16(y as int + lineH as int) > h {
        screen := screen + [FillScreen(Black)];
        y := 20;
      }
      screen := screen + [WriteLine(x, y, msg, col)];
      y := Wrap16(y as int + lineH as int);
    }

    /** A line in the base colour. */
    method Println(msg: string, h: int16)
      modifies this
      ensures screen == old(screen) + Drawn(old(y), lineH, h, x, msg, color)
      ensures y == Next(old(y), lineH, h)
    {
      Log(msg, color, h);
    }

    /** A line in yellow. */
    method Warn(msg: string, h: int16)
      modifies this
      ensures screen == old(screen) + Drawn(old(y), lineH, h, x, msg, Yellow)
      ensures y == Next(old(y), lineH, h)
    {
      Log(msg, Rgba(255, 255, 0, 255), h);
    }

    /** A line in red. */
    method Error(msg: string, h: int16)
      modifies this
      ensures screen == old(screen) + Drawn(old(y), lineH, h, x, msg, Red)
      ensures y == Next(old(y), lineH, h)
    {
      Log(msg, Rgba(255, 0, 0, 255), h);
    }
  }
}
