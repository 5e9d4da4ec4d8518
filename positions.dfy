/** Grid coordinates: an immutable (row, column) pair that is always inside the
    8×8 grid, one-step movement, and the "R#-C#" / "#-#" text forms. */
module Positions {
  import opened Outcomes
  import opened Directions
  import opened Strings

  const GridSize: int := 8

  datatype Coord = Coord(row: int, column: int)

  predicate InGrid(row: int, column: int) {
    0 <= row < GridSize && 0 <= column < GridSize
  }

  /** A Position can only be built inside the grid, so every value of this
      type is in bounds (0-based). */
  type Position = c: Coord | InGrid(c.row, c.column) witness Coord(0, 0)

  /** The checked constructor: fails with InvalidPosition outside 0..7. */
  function NewPosition(row: int, column: int): (r: Result<Position>)
    ensures r.Ok? <==> InGrid(row, column)
    ensures r.Ok? ==> r.value.row == row && r.value.column == column
    ensures r.Err? ==> r.error == InvalidPosition
  {
    if row < 0 || row >= GridSize || column < 0 || column >= GridSize then Err(InvalidPosition)
    else Ok(Coord(row, column))
  }

  /** How many steps in direction d are left before the border. */
  function StepsToBorder(p: Position, d: Direction): (n: nat)
    ensures n < GridSize
  {
    match d
    case Up => p.row
    case Down => GridSize - 1 - p.row
    case Left => p.column
    case Right => GridSize - 1 - p.column
  }

  /** The neighbour one step away in direction d, or None at the border. */
  function Move(p: Position, d: Direction): (r: Option<Position>)
    ensures r.None? <==> !InGrid(p.row + RowDelta(d), p.column + ColDelta(d))
    ensures r.None? <==> StepsToBorder(p, d) == 0
    ensures r.Some? ==> r.value == Coord(p.row + RowDelta(d), p.column + ColDelta(d))
    ensures r.Some? ==> StepsToBorder(r.value, d) == StepsToBorder(p, d) - 1
  {
    var newRow := p.row + RowDelta(d);
    var newCol := p.column + ColDelta(d);
    if newRow < 0 || newRow >= GridSize || newCol < 0 || newCol >= GridSize then None
    else Some(Coord(newRow, newCol))
  }

  /** A step can always be undone by a step in the opposite direction. */
  lemma MoveThenOpposite(p: Position, d: Direction)
    requires Move(p, d).Some?
    ensures Move(Move(p, d).value, Opposite(d)) == Some(p)
  {
  }

  /** Position.equals compares rows and columns; Position.hashCode. */
  function HashCode(p: Position): int {
    31 * p.row + p.column
  }

  /** Equal hash codes imply equal positions on the grid. */
  lemma HashCodeInjective(p: Position, q: Position)
    requires HashCode(p) == HashCode(q)
    ensures p == q
  {
  }

  /** The 1-based display form "R<row>-C<column>". */
  function ToDisplayString(p: Position): (s: string)
    ensures |s| == 5 && s[0] == 'R' && s[2] == '-' && s[3] == 'C'
    ensures IsDigit(s[1]) && DigitValue(s[1]) == p.row + 1
    ensures IsDigit(s[4]) && DigitValue(s[4]) == p.column + 1
  {
    "R" + [DigitChar(p.row + 1)] + "-C" + [DigitChar(p.column + 1)]
  }

  /** Parses "R#-C#", "R#C#" or "#-#", in either case and with surrounding
      blanks, into a 0-based position; None stands for Java's null input. */
  function FromString(input: Option<string>): (r: Result<Position>)
    ensures r.Err? ==> r.error == InvalidPosition
    ensures r.Ok? ==> input.Some? && Trim(input.value) != []
  {
    if input.None? || Trim(input.value) == [] then Err(InvalidPosition)
    else FromNormalized(ToUpper(Trim(input.value)))
  }

  /** FromString after trimming and upper-casing: the R/C form is tried when
      both letters occur, the dash form when a dash occurs. */
  function FromNormalized(t: string): Result<Position> {
    if 'R' in t && 'C' in t then
      FromParts(Split(RemoveAll(t, 'R'), DashC))
    else if '-' in t then
      FromParts(Split(t, Dash))
    else
      Err(InvalidPosition)
  }

  /** Exactly two numeric parts, each 1..8 after conversion to 0-based. */
  function FromParts(parts: seq<string>): (r: Result<Position>)
    ensures r.Ok? <==>
      |parts| == 2 && ParseInt(Trim(parts[0])).Some? && ParseInt(Trim(parts[1])).Some? &&
      InGrid(ParseInt(Trim(parts[0])).value - 1, ParseInt(Trim(parts[1])).value - 1)
    ensures r.Ok? ==>
      r.value.row == ParseInt(Trim(parts[0])).value - 1 &&
      r.value.column == ParseInt(Trim(parts[1])).value - 1
  {
    if |parts| != 2 then Err(InvalidPosition)
    else
      var row := ParseInt(Trim(parts[0]));
      var col := ParseInt(Trim(parts[1]));
      if row.None? || col.None? then Err(InvalidPosition)
      else NewPosition(row.value - 1, col.value - 1)
  }

  /** Two one-digit parts a, b name the 1-based cell (a, b). */
  lemma FromDigitParts(a: char, b: char)
    requires IsDigit(a) && IsDigit(b)
    ensures FromParts([[a], [b]]) == NewPosition(DigitValue(a) - 1, DigitValue(b) - 1)
  {
    TrimNoop([a]);
    TrimNoop([b]);
    ParseOneDigit(a);
    ParseOneDigit(b);
  }

  /** The normalized form "<a>-<b>". */
  lemma DashForm(a: char, b: char)
    requires IsDigit(a) && IsDigit(b)
    ensures FromNormalized([a, '-', b]) == NewPosition(DigitValue(a) - 1, DigitValue(b) - 1)
  {
    var u := [a, '-', b];
    assert 'R' !in u && '-' in u;
    assert FromNormalized(u) == FromParts(Split(u, Dash));
    assert Split(u, Dash) == [[a], [b]] by {
      calc {
        SplitFrom(u, 0, 0, Dash);
        SplitFrom(u, 0, 1, Dash);
        [u[0..1]] + SplitFrom(u, 2, 2, Dash);
        [u[0..1]] + SplitFrom(u, 2, 3, Dash);
        [u[0..1]] + [u[2..]];
      }
      assert u[0..1] == [a] && u[2..] == [b];
    }
    FromDigitParts(a, b);
  }

  lemma RemoveRowLetter(a: char, b: char)
    requires IsDigit(a) && IsDigit(b)
    ensures RemoveAll(['R', a, '-', 'C', b], 'R') == [a, '-', 'C', b]
  {
    RemoveLeading(['R', a, '-', 'C', b], [a, '-', 'C', b], 'R');
  }

  lemma SplitDashC(a: char, b: char)
    requires IsDigit(a) && IsDigit(b)
    ensures Split([a, '-', 'C', b], DashC) == [[a], [b]]
  {
    var u := [a, '-', 'C', b];
    calc {
      SplitFrom(u, 0, 0, DashC);
      SplitFrom(u, 0, 1, DashC);
      [u[0..1]] + SplitFrom(u, 3, 3, DashC);
      [u[0..1]] + SplitFrom(u, 3, 4, DashC);
      [u[0..1]] + [u[3..]];
    }
    assert u[0..1] == [a] && u[3..] == [b];
  }

  /** The normalized form "R<a>-C<b>". */
  lemma RowDashColumnForm(a: char, b: char)
    requires IsDigit(a) && IsDigit(b)
    ensures FromNormalized(['R', a, '-', 'C', b]) == NewPosition(DigitValue(a) - 1, DigitValue(b) - 1)
  {
    var t := ['R', a, '-', 'C', b];
    assert 'R' in t && 'C' in t;
    RemoveRowLetter(a, b);
    SplitDashC(a, b);
    FromDigitParts(a, b);
  }

  lemma RemoveRowLetterShort(a: char, b: char)
    requires IsDigit(a) && IsDigit(b)
    ensures RemoveAll(['R', a, 'C', b], 'R') == [a, 'C', b]
  {
    RemoveLeading(['R', a, 'C', b], [a, 'C', b], 'R');
  }

  lemma SplitC(a: char, b: char)
    requires IsDigit(a) && IsDigit(b)
    ensures Split([a, 'C', b], DashC) == [[a], [b]]
  {
    var u := [a, 'C', b];
    calc {
      SplitFrom(u, 0, 0, DashC);
      SplitFrom(u, 0, 1, DashC);
      [u[0..1]] + SplitFrom(u, 2, 2, DashC);
      [u[0..1]] + SplitFrom(u, 2, 3, DashC);
      [u[0..1]] + [u[2..]];
    }
    assert u[0..1] == [a] && u[2..] == [b];
  }

  /** The normalized form "R<a>C<b>". */
  lemma RowColumnForm(a: char, b: char)
    requires IsDigit(a) && IsDigit(b)
    ensures FromNormalized(['R', a, 'C', b]) == NewPosition(DigitValue(a) - 1, DigitValue(b) - 1)
  {
    var t := ['R', a, 'C', b];
    assert 'R' in t && 'C' in t;
    RemoveRowLetterShort(a, b);
    SplitC(a, b);
    FromDigitParts(a, b);
  }

  /** Equal texts parse alike; stated on its own so that the parse of a
      symbolic text need not be unfolded. */
  lemma SameText(t: string, u: string)
    requires t == u
    ensures FromNormalized(t) == FromNormalized(u)
  {
  }

  /** Any normalized text of the shape "<a>-<b>". */
  lemma DashShape(t: string)
    requires |t| == 3 && IsDigit(t[0]) && t[1] == '-' && IsDigit(t[2])
    ensures FromNormalized(t) == NewPosition(DigitValue(t[0]) - 1, DigitValue(t[2]) - 1)
  {
    var u := [t[0], '-', t[2]];
    assert t == u;
    SameText(t, u);
    DashForm(t[0], t[2]);
  }

  /** Any normalized text of the shape "R<a>C<b>". */
  lemma RowColumnShape(t: string)
    requires |t| == 4 && t[0] == 'R' && IsDigit(t[1]) && t[2] == 'C' && IsDigit(t[3])
    ensures FromNormalized(t) == NewPosition(DigitValue(t[1]) - 1, DigitValue(t[3]) - 1)
  {
    var u := ['R', t[1], 'C', t[3]];
    assert t == u;
    SameText(t, u);
    RowColumnForm(t[1], t[3]);
  }

  /** Any normalized text of the shape "R<a>-C<b>". */
  lemma RowDashColumnShape(t: string)
    requires |t| == 5 && t[0] == 'R' && IsDigit(t[1]) && t[2] == '-' && t[3] == 'C' && IsDigit(t[4])
    ensures FromNormalized(t) == NewPosition(DigitValue(t[1]) - 1, DigitValue(t[4]) - 1)
  {
    var u := ['R', t[1], '-', 'C', t[4]];
    assert t == u;
    SameText(t, u);
    RowDashColumnForm(t[1], t[4]);
  }

  /** Parsing the display form gives back the position. */
  lemma DisplayRoundTrip(p: Position)
    ensures FromString(Some(ToDisplayString(p))) == Ok(p)
  {
    var a, b := DigitChar(p.row + 1), DigitChar(p.column + 1);
    var s := ToDisplayString(p);
    assert s == ['R', a, '-', 'C', b];
    TrimNoop(s);
    assert ToUpper(s) == s;
    RowDashColumnForm(a, b);
  }

  /** Scenario: "3-5" names row 3, column 5, which is (2, 4) 0-based. */
  lemma ParseDashExample(s: string)
    requires s == "3-5"
    ensures FromString(Some(s)) == Ok(Coord(2, 4))
  {
    assert ToUpper(s) == s;
    assert Trim(s) == s by { TrimNoop(s); }
    assert s == ['3', '-', '5'];
    DashForm('3', '5');
  }

  /** Scenario: lower-case "r3-c5" names the same cell. */
  lemma ParseRowColumnExample(s: string)
    requires s == "r3-c5"
    ensures FromString(Some(s)) == Ok(Coord(2, 4))
  {
    assert Trim(s) == s by { TrimNoop(s); }
    var t := ToUpper(s);
    var u := ['R', '3', '-', 'C', '5'];
    assert t == u by {
      assert t[0] == 'R' && t[1] == '3' && t[2] == '-' && t[3] == 'C' && t[4] == '5';
    }
    SameText(t, u);
    RowDashColumnForm('3', '5');
  }

  /** Scenario: surrounding blanks are ignored and the dash is optional. */
  lemma ParseBlankPaddedExample(s: string)
    requires s == " R3C5 "
    ensures FromString(Some(s)) == Ok(Coord(2, 4))
  {
    var t := ['R', '3', 'C', '5'];
    assert TrimLeft(s) == s[1..];
    assert TrimRight(s[1..]) == t by { assert s[1..][..4] == t; TrimNoop(t); }
    assert ToUpper(t) == t;
    RowColumnForm('3', '5');
  }

  /** Null and blank input are rejected before any parsing. */
  lemma ParseRejectsNullAndBlank(s: string)
    requires forall i :: 0 <= i < |s| ==> IsTrimmable(s[i])
    ensures FromString(None) == Err(InvalidPosition)
    ensures FromString(Some(s)) == Err(InvalidPosition)
  {
    AllBlankTrimsToEmpty(s);
  }

  /** Digits outside 1..8 are rejected in each of the three forms. */
  lemma ParseRejectsOutOfRange(a: char, b: char)
    requires IsDigit(a) && IsDigit(b)
    requires a == '0' || a == '9' || b == '0' || b == '9'
    ensures FromNormalized([a, '-', b]) == Err(InvalidPosition)
    ensures FromNormalized(['R', a, '-', 'C', b]) == Err(InvalidPosition)
    ensures FromNormalized(['R', a, 'C', b]) == Err(InvalidPosition)
  {
    DashForm(a, b);
    RowDashColumnForm(a, b);
    RowColumnForm(a, b);
  }

  /** Text with neither the two letters R and C nor a dash is rejected, and
      so is any split that does not give two numbers. */
  lemma ParseRejectsShape(t: string, parts: seq<string>)
    requires !('R' in t && 'C' in t) && '-' !in t
    requires |parts| != 2 || ParseInt(Trim(parts[0])).None? || ParseInt(Trim(parts[1])).None?
    ensures FromNormalized(t) == Err(InvalidPosition)
    ensures FromParts(parts) == Err(InvalidPosition)
  {
  }
}
