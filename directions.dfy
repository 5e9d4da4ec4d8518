/** The four roll directions of the puzzle, their grid deltas, and the inward
    directions of a perimeter cell. */
module Directions {

  datatype Direction = Up | Down | Left | Right

  /** Change in row index for one step; the enum constructor takes
      (colDelta, rowDelta) in that order. */
  function RowDelta(d: Direction): int {
    match d
    case Up => -1
    case Down => 1
    case Left => 0
    case Right => 0
  }

  /** Change in column index for one step. */
  function ColDelta(d: Direction): int {
    match d
    case Up => 0
    case Down => 0
    case Left => -1
    case Right => 1
  }

  function Opposite(d: Direction): (o: Direction)
    ensures o != d
    ensures RowDelta(o) == -RowDelta(d) && ColDelta(o) == -ColDelta(d)
  {
    match d
    case Up => Down
    case Down => Up
    case Left => Right
    case Right => Left
  }

  /** Every direction moves along exactly one axis by exactly one cell. */
  lemma DeltaIsUnitStep(d: Direction)
    ensures (RowDelta(d) == 0) != (ColDelta(d) == 0)
    ensures RowDelta(d) * RowDelta(d) + ColDelta(d) * ColDelta(d) == 1
    ensures d == Up <==> RowDelta(d) == -1
    ensures d == Down <==> RowDelta(d) == 1
    ensures d == Left <==> ColDelta(d) == -1
    ensures d == Right <==> ColDelta(d) == 1
  {
  }

  lemma OppositeInvolution(d: Direction)
    ensures Opposite(Opposite(d)) == d
  {
  }

  lemma OppositePairs()
    ensures Opposite(Up) == Down && Opposite(Down) == Up
    ensures Opposite(Left) == Right && Opposite(Right) == Left
  {
  }

  /** The directions in which a box at (row, col) can be rolled into an n×n
      grid: two at a corner, one on the rest of the perimeter, none inside.
      The order is the source's fixed order. */
  function FromEdgePosition(row: int, col: int, gridSize: int): (ds: seq<Direction>)
    ensures |ds| <= 2
  {
    var isTop := row == 0;
    var isBottom := row == gridSize - 1;
    var isLeft := col == 0;
    var isRight := col == gridSize - 1;
    if isTop && isLeft then [Right, Down]
    else if isTop && isRight then [Left, Down]
    else if isBottom && isLeft then [Right, Up]
    else if isBottom && isRight then [Left, Up]
    else if isTop then [Down]
    else if isBottom then [Up]
    else if isLeft then [Right]
    else if isRight then [Left]
    else []
  }

  predicate OnBorder(row: int, col: int, n: int) {
    row == 0 || row == n - 1 || col == 0 || col == n - 1
  }

  predicate AtCorner(row: int, col: int, n: int) {
    (row == 0 || row == n - 1) && (col == 0 || col == n - 1)
  }

  /** Corners yield exactly two directions, the rest of the border one,
      the interior none. */
  lemma EdgeDirectionCount(row: int, col: int, n: int)
    requires 0 <= row < n && 0 <= col < n && n >= 2
    ensures AtCorner(row, col, n) <==> |FromEdgePosition(row, col, n)| == 2
    ensures OnBorder(row, col, n) && !AtCorner(row, col, n) <==> |FromEdgePosition(row, col, n)| == 1
    ensures !OnBorder(row, col, n) <==> FromEdgePosition(row, col, n) == []
  {
  }

  /** The corner pairs and the single edge directions, as listed by the source;
      k is any index strictly between the two borders. */
  lemma EdgeDirectionTable(n: int, k: int)
    requires 0 < k < n - 1
    ensures FromEdgePosition(0, 0, n) == [Right, Down]
    ensures FromEdgePosition(0, n - 1, n) == [Left, Down]
    ensures FromEdgePosition(n - 1, 0, n) == [Right, Up]
    ensures FromEdgePosition(n - 1, n - 1, n) == [Left, Up]
    ensures FromEdgePosition(0, k, n) == [Down]
    ensures FromEdgePosition(n - 1, k, n) == [Up]
    ensures FromEdgePosition(k, 0, n) == [Right]
    ensures FromEdgePosition(k, n - 1, n) == [Left]
  {
  }

  /** Every returned direction points into the grid: one step stays inside. */
  lemma EdgeDirectionsPointInward(row: int, col: int, n: int, i: int)
    requires 0 <= row < n && 0 <= col < n && n >= 2
    requires 0 <= i < |FromEdgePosition(row, col, n)|
    ensures var d := FromEdgePosition(row, col, n)[i];
      0 <= row + RowDelta(d) < n && 0 <= col + ColDelta(d) < n
  {
  }
}
