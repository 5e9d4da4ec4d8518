/** Checks on console input before it is used: the position formats, 1-based
    row and column numbers, the two-way menu choices, and the edge and corner
    tests with the roll directions they allow. Java's null string is None. */
module InputValidator {
  import opened Outcomes
  import opened Directions
  import opened Strings
  import opened Positions

  /** The character class [1-8]. */
  predicate IsGridDigit(c: char) {
    '1' <= c <= '8'
  }

  /** The whole string matches R[1-8]-?C[1-8]. */
  predicate MatchesRowColumn(t: string) {
    (|t| == 4 && t[0] == 'R' && IsGridDigit(t[1]) && t[2] == 'C' && IsGridDigit(t[3]))
    || (|t| == 5 && t[0] == 'R' && IsGridDigit(t[1]) && t[2] == '-' && t[3] == 'C' && IsGridDigit(t[4]))
  }

  /** The whole string matches [1-8]-[1-8]. */
  predicate MatchesDashForm(t: string) {
    |t| == 3 && IsGridDigit(t[0]) && t[1] == '-' && IsGridDigit(t[2])
  }

  /** The text the format is checked on: trimmed, then upper-cased. */
  function Normalized(s: string): string {
    ToUpper(Trim(s))
  }

  /** isValidPositionFormat: null and blank input are refused; otherwise the
      normalized text must be one of the two formats. */
  function IsValidPositionFormat(input: Option<string>): (b: bool)
    ensures b <==> input.Some? && (MatchesRowColumn(Normalized(input.value)) || MatchesDashForm(Normalized(input.value)))
    ensures input.Some? && Trim(input.value) == [] ==> !b
  {
    if input.None? || Trim(input.value) == [] then false
    else
      var t := Normalized(input.value);
      MatchesRowColumn(t) || MatchesDashForm(t)
  }

  /** The row digit of a well-formed input: after the R, or first. */
  function RowDigit(t: string): (c: char)
    requires MatchesRowColumn(t) || MatchesDashForm(t)
    ensures IsGridDigit(c)
  {
    if t[0] == 'R' then t[1] else t[0]
  }

  /** The column digit of a well-formed input: always last. */
  function ColumnDigit(t: string): (c: char)
    requires MatchesRowColumn(t) || MatchesDashForm(t)
    ensures IsGridDigit(c)
  {
    t[|t| - 1]
  }

  /** Whatever the format check lets through, Position.fromString parses,
      to the 0-based cell its two digits name. */
  lemma ValidFormatParses(s: string)
    requires IsValidPositionFormat(Some(s))
    ensures FromString(Some(s))
      == Ok(Coord(DigitValue(RowDigit(Normalized(s))) - 1, DigitValue(ColumnDigit(Normalized(s))) - 1))
  {
    FormParses(Normalized(s));
  }

  /** Each of the three accepted shapes parses to the cell its digits name. */
  lemma FormParses(t: string)
    requires MatchesRowColumn(t) || MatchesDashForm(t)
    ensures FromNormalized(t) == NewPosition(DigitValue(RowDigit(t)) - 1, DigitValue(ColumnDigit(t)) - 1)
  {
    if MatchesDashForm(t) {
      DashParses(t);
    } else if |t| == 4 {
      RowColumnParses(t);
    } else {
      RowDashColumnParses(t);
    }
  }

  lemma DashParses(t: string)
    requires MatchesDashForm(t)
    ensures FromNormalized(t) == NewPosition(DigitValue(RowDigit(t)) - 1, DigitValue(ColumnDigit(t)) - 1)
  {
    assert RowDigit(t) == t[0];
    assert ColumnDigit(t) == t[2];
    DashShape(t);
  }

  lemma RowColumnParses(t: string)
    requires |t| == 4 && MatchesRowColumn(t)
    ensures FromNormalized(t) == NewPosition(DigitValue(RowDigit(t)) - 1, DigitValue(ColumnDigit(t)) - 1)
  {
    assert RowDigit(t) == t[1];
    assert ColumnDigit(t) == t[3];
    RowColumnShape(t);
  }

  lemma RowDashColumnParses(t: string)
    requires |t| == 5 && MatchesRowColumn(t)
    ensures FromNormalized(t) == NewPosition(DigitValue(RowDigit(t)) - 1, DigitValue(ColumnDigit(t)) - 1)
  {
    assert RowDigit(t) == t[1];
    assert ColumnDigit(t) == t[4];
    RowDashColumnShape(t);
  }

  /** The display form of every cell passes the format check. */
  lemma DisplayFormIsValid(p: Position)
    ensures IsValidPositionFormat(Some(ToDisplayString(p)))
  {
    var s := ToDisplayString(p);
    var a, b := DigitChar(p.row + 1), DigitChar(p.column + 1);
    assert s == ['R', a, '-', 'C', b];
    TrimNoop(s);
    assert ToUpper(s) == s;
  }

  /** isValidRowNumber: 1..8. */
  predicate IsValidRowNumber(row: int) {
    1 <= row <= GridSize
  }

  /** isValidColumnNumber: 1..8. */
  predicate IsValidColumnNumber(col: int) {
    1 <= col <= GridSize
  }

  /** A 1-based row or column number is valid iff, made 0-based, it is a
      coordinate the Position constructor accepts. */
  lemma NumbersAreGridCoordinates(row: int, col: int)
    ensures IsValidRowNumber(row) && IsValidColumnNumber(col) <==> NewPosition(row - 1, col - 1).Ok?
  {
  }

  /** isValidRowInput: null, blank or non-integer text is refused; a number
      must be a valid row number. */
  function IsValidRowInput(input: Option<string>): (b: bool)
    ensures b <==> input.Some? && ParseInt(Trim(input.value)).Some? && IsValidRowNumber(ParseInt(Trim(input.value)).value)
  {
    if input.None? || Trim(input.value) == [] then false
    else
      match ParseInt(Trim(input.value))
      case None => false
      case Some(row) => IsValidRowNumber(row)
  }

  /** isValidColumnInput: the same checks for a column. */
  function IsValidColumnInput(input: Option<string>): (b: bool)
    ensures b <==> input.Some? && ParseInt(Trim(input.value)).Some? && IsValidColumnNumber(ParseInt(Trim(input.value)).value)
  {
    if input.None? || Trim(input.value) == [] then false
    else
      match ParseInt(Trim(input.value))
      case None => false
      case Some(col) => IsValidColumnNumber(col)
  }

  /** An accepted row or column input names a 0-based index on the board. */
  lemma LineInputsNameGridLines(r: string, c: string)
    requires IsValidRowInput(Some(r)) && IsValidColumnInput(Some(c))
    ensures NewPosition(ParseInt(Trim(r)).value - 1, ParseInt(Trim(c)).value - 1).Ok?
  {
  }

  /** A single character is a valid row (or column) input iff it is one of
      the digits 1..8. */
  lemma {:induction false} OneCharLineInput(c: char)
    ensures IsValidRowInput(Some([c])) <==> IsGridDigit(c)
    ensures IsValidColumnInput(Some([c])) <==> IsGridDigit(c)
  {
    if IsTrimmable(c) {
      assert Trim([c]) == [];
    } else {
      TrimNoop([c]);
      if IsDigit(c) {
        ParseOneDigit(c);
      } else {
        assert !AllDigits([c]);
        assert c != '-' && c != '+' ==> ParseInt([c]).None?;
        if c == '-' || c == '+' {
          assert [c][1..] == [];
        }
      }
    }
  }

  /** With any trimmable padding around it, text bounded by visible
      characters is a valid row (or column) input iff it parses to 1..8. */
  lemma PaddedLineInput(left: string, t: string, right: string)
    requires AllTrimmable(left) && AllTrimmable(right)
    requires t != [] && !IsTrimmable(t[0]) && !IsTrimmable(t[|t| - 1])
    ensures IsValidRowInput(Some(left + t + right)) <==> ParseInt(t).Some? && 1 <= ParseInt(t).value <= GridSize
    ensures IsValidColumnInput(Some(left + t + right)) <==> ParseInt(t).Some? && 1 <= ParseInt(t).value <= GridSize
  {
    TrimPadded(left, t, right);
  }

  /** Integer.parseInt lets leading zeros and a plus sign through: with any
      padding, a digit after zeros and an optional '+' is accepted iff it is
      1..8, and after a '-' it is always refused. */
  lemma NumeralLineInput(left: string, zeros: nat, c: char, right: string)
    requires AllTrimmable(left) && AllTrimmable(right) && IsDigit(c)
    ensures IsValidRowInput(Some(left + (Zeros(zeros) + [c]) + right)) <==> IsGridDigit(c)
    ensures IsValidRowInput(Some(left + (['+'] + Zeros(zeros) + [c]) + right)) <==> IsGridDigit(c)
    ensures !IsValidRowInput(Some(left + (['-'] + Zeros(zeros) + [c]) + right))
    ensures IsValidColumnInput(Some(left + (Zeros(zeros) + [c]) + right)) <==> IsGridDigit(c)
    ensures IsValidColumnInput(Some(left + (['+'] + Zeros(zeros) + [c]) + right)) <==> IsGridDigit(c)
    ensures !IsValidColumnInput(Some(left + (['-'] + Zeros(zeros) + [c]) + right))
  {
    SignedNumeralInput(left, Zeros(zeros) + [c], right, zeros, c, DigitValue(c));
    SignedNumeralInput(left, ['+'] + Zeros(zeros) + [c], right, zeros, c, DigitValue(c));
    SignedNumeralInput(left, ['-'] + Zeros(zeros) + [c], right, zeros, c, -DigitValue(c));
  }

  /** One sign at a time: the numeral t, worth v, between trimmable
      padding. */
  lemma SignedNumeralInput(left: string, t: string, right: string, zeros: nat, c: char, v: int)
    requires AllTrimmable(left) && AllTrimmable(right) && IsDigit(c)
    requires (t == Zeros(zeros) + [c] && v == DigitValue(c))
      || (t == ['+'] + Zeros(zeros) + [c] && v == DigitValue(c))
      || (t == ['-'] + Zeros(zeros) + [c] && v == -DigitValue(c))
    ensures IsValidRowInput(Some(left + t + right)) <==> 1 <= v <= GridSize
    ensures IsValidColumnInput(Some(left + t + right)) <==> 1 <= v <= GridSize
  {
    ParseZeroPadded(zeros, c);
    assert t[|t| - 1] == c;
    assert t[0] == '+' || t[0] == '-' || t[0] == '0' || t[0] == c;
    ParsedLineInput(left, t, right, v);
  }

  /** PaddedLineInput for text whose parsed value is known. */
  lemma ParsedLineInput(left: string, t: string, right: string, v: int)
    requires AllTrimmable(left) && AllTrimmable(right)
    requires t != [] && !IsTrimmable(t[0]) && !IsTrimmable(t[|t| - 1])
    requires ParseInt(t) == Some(v)
    ensures IsValidRowInput(Some(left + t + right)) <==> 1 <= v <= GridSize
    ensures IsValidColumnInput(Some(left + t + right)) <==> 1 <= v <= GridSize
  {
    PaddedLineInput(left, t, right);
  }

  /** isValidYesNoChoice: the trimmed text is exactly "1" or "2". */
  function IsValidYesNoChoice(input: Option<string>): (b: bool)
    ensures b ==> input.Some? && |Trim(input.value)| == 1
  {
    input.Some? && (Trim(input.value) == "1" || Trim(input.value) == "2")
  }

  /** isValidDirectionChoice gives the same answers as the yes/no check. */
  function IsValidDirectionChoice(input: Option<string>): (b: bool)
    ensures b == IsValidYesNoChoice(input)
  {
    IsValidYesNoChoice(input)
  }

  /** A choice with any trimmable padding around one character is accepted
      iff that character is 1 or 2; null is refused. */
  lemma ChoiceAcceptsOneOrTwo(left: string, c: char, right: string)
    requires AllTrimmable(left) && AllTrimmable(right)
    ensures IsValidYesNoChoice(Some(left + [c] + right)) <==> c == '1' || c == '2'
    ensures !IsValidYesNoChoice(None)
  {
    var s := left + [c] + right;
    if IsTrimmable(c) {
      assert AllTrimmable(s) by {
        forall i | 0 <= i < |s| ensures IsTrimmable(s[i]) {
          if i < |left| { assert s[i] == left[i]; }
          else if i > |left| { assert s[i] == right[i - |left| - 1]; }
        }
      }
      AllBlankTrimsToEmpty(s);
    } else {
      TrimPadded(left, [c], right);
    }
  }

  /** isEdgePosition: row or column 0 or 7, exactly the cells that have a
      roll direction. */
  function IsEdgePosition(p: Position): (b: bool)
    ensures b <==> p.row == 0 || p.row == GridSize - 1 || p.column == 0 || p.column == GridSize - 1
    ensures b <==> GetValidDirectionsForEdge(p) != []
  {
    EdgeDirectionCount(p.row, p.column, GridSize);
    OnBorder(p.row, p.column, GridSize)
  }

  /** isCornerPosition: both row and column 0 or 7, exactly the cells that
      have two roll directions. */
  function IsCornerPosition(p: Position): (b: bool)
    ensures b <==> (p.row == 0 || p.row == GridSize - 1) && (p.column == 0 || p.column == GridSize - 1)
    ensures b <==> |GetValidDirectionsForEdge(p)| == 2
    ensures b ==> IsEdgePosition(p)
  {
    EdgeDirectionCount(p.row, p.column, GridSize);
    AtCorner(p.row, p.column, GridSize)
  }

  /** getValidDirectionsForEdge: the directions of Direction.fromEdgePosition
      on the 8×8 board; each keeps the first step on the board. */
  function GetValidDirectionsForEdge(p: Position): (ds: seq<Direction>)
    ensures ds == FromEdgePosition(p.row, p.column, GridSize)
    ensures forall i :: 0 <= i < |ds| ==> Move(p, ds[i]).Some?
  {
    var ds := FromEdgePosition(p.row, p.column, GridSize);
    assert forall i :: 0 <= i < |ds| ==> Move(p, ds[i]).Some? by {
      forall i | 0 <= i < |ds| ensures Move(p, ds[i]).Some? {
        EdgeDirectionsPointInward(p.row, p.column, GridSize, i);
      }
    }
    ds
  }
}
