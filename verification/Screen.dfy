/**
 A terminal with unbounded rows and columns, as far as the progress display uses it:
 printing, CUU and CUD (cursor up and down) and EL (erase the whole line).
 */
module Screen {
  type Lines = map<nat, string>

  /** The cursor and the text of each row; a row not listed is blank. */
  datatype Screen = Screen(row: nat, col: nat, lines: Lines)

  function LineAt(lines: Lines, row: nat): string {
    if row in lines then lines[row] else ""
  }

  function Blanks(n: nat): string {
    seq(n, _ => ' ')
  }

  /** The line with `c` in column `col`. */
  function Overlay(line: string, col: nat, c: char): string {
    if col < |line| then line[col := c] else line + Blanks(col - |line|) + [c]
  }

  function PutChar(sc: Screen, c: char): Screen {
    if c == '\n' then sc.(row := sc.row + 1, col := 0)
    else if c == '\r' then sc.(col := 0)
    else Screen(sc.row, sc.col + 1, sc.lines[sc.row := Overlay(LineAt(sc.lines, sc.row), sc.col, c)])
  }

  function PutText(sc: Screen, text: string): Screen {
    if text == "" then sc else PutChar(PutText(sc, text[..|text| - 1]), text[|text| - 1])
  }

  function Up(sc: Screen, n: nat): Screen {
    sc.(row := if n <= sc.row then sc.row - n else 0)
  }

  function Down(sc: Screen, n: nat): Screen {
    sc.(row := sc.row + n)
  }

  function Erase(sc: Screen): Screen {
    sc.(lines := sc.lines[sc.row := ""])
  }

  /** Same lines but for the one row. */
  ghost predicate OnlyRow(row: nat, a: Lines, b: Lines) {
    forall r: nat | r != row :: LineAt(a, r) == LineAt(b, r)
  }

  lemma {:induction false} PutTextAppend(sc: Screen, a: string, b: string)
    ensures PutText(sc, a + b) == PutText(PutText(sc, a), b)
  {
    hide PutChar;
    if b == "" {
      assert a + b == a;
    } else {
      PutTextAppend(sc, a, b[..|b| - 1]);
      assert (a + b)[..|a + b| - 1] == a + b[..|b| - 1];
    }
  }

  /** Text without newlines stays in its row. */
  lemma {:induction false} PutTextInRow(sc: Screen, text: string)
    requires '\n' !in text
    ensures PutText(sc, text).row == sc.row
    ensures OnlyRow(sc.row, sc.lines, PutText(sc, text).lines)
  {
    if text != "" {
      PutTextInRow(sc, text[..|text| - 1]);
    }
  }

  /** The cursor is not further up, and every row above where it was reads the same. */
  ghost predicate KeptAbove(a: Screen, b: Screen) {
    a.row <= b.row && forall row: nat | row < a.row :: LineAt(a.lines, row) == LineAt(b.lines, row)
  }

  /** Whatever is printed, the rows above are kept. */
  lemma {:induction false} PutTextBelow(sc: Screen, text: string)
    ensures KeptAbove(sc, PutText(sc, text))
  {
    if text != "" {
      PutTextBelow(sc, text[..|text| - 1]);
    }
  }

  /** Printing at the end of a line appends to it. */
  lemma {:induction false} PutTextAtEnd(sc: Screen, text: string)
    requires '\n' !in text && '\r' !in text
    requires sc.col == |LineAt(sc.lines, sc.row)|
    ensures var after := PutText(sc, text);
            && after.row == sc.row && after.col == sc.col + |text|
            && LineAt(after.lines, sc.row) == LineAt(sc.lines, sc.row) + text
  {
    if text != "" {
      PutTextAtEnd(sc, text[..|text| - 1]);
      assert text == text[..|text| - 1] + [text[|text| - 1]];
    }
  }

  /** Erasing a line, returning to its start and printing makes the line read just that. */
  lemma RedrawLine(sc: Screen, text: string)
    requires '\n' !in text && '\r' !in text
    ensures var after := PutText(PutText(PutText(Erase(sc), "\r"), text), "\r");
            && after.row == sc.row && LineAt(after.lines, sc.row) == text
            && OnlyRow(sc.row, sc.lines, after.lines)
  {
    var start := Erase(sc).(col := 0);
    CarriageReturn(Erase(sc));
    PutTextAtEnd(start, text);
    PutTextInRow(start, text);
    CarriageReturn(PutText(start, text));
  }

  lemma CarriageReturn(sc: Screen)
    ensures PutText(sc, "\r") == sc.(col := 0)
  {
  }

  lemma LineFeed(sc: Screen)
    ensures PutText(sc, "\n") == sc.(row := sc.row + 1, col := 0)
  {
  }
}
