/** The 8×8 board of boxes: the domino roll from an edge, stamping of a
    cell, a row, a column or a plus shape, cell replacement, the score count
    and the end-of-game query. Boxes never move between cells; a roll turns
    the faces of each box in place. */
module Grid {
  import opened Outcomes
  import opened Directions
  import opened Positions
  import opened Surfaces
  import opened Boxes

  /** The cell k steps from p in direction d (possibly off the board). */
  function Shift(p: Position, d: Direction, k: nat): Coord {
    match d
    case Up => Coord(p.row - k, p.column)
    case Down => Coord(p.row + k, p.column)
    case Left => Coord(p.row, p.column - k)
    case Right => Coord(p.row, p.column + k)
  }

  /** The cells a domino roll from p in direction d reaches: p and each next
      cell in turn, stopping at the border or before the first Fixed box. */
  function Run(p: Position, d: Direction, fixed: set<Coord>): (r: seq<Position>)
    ensures p in fixed <==> r == []
    ensures r != [] ==> r[0] == p
    ensures |r| <= StepsToBorder(p, d) + 1
    ensures forall x :: x in r ==> x !in fixed && StepsToBorder(x, d) <= StepsToBorder(p, d)
    decreases StepsToBorder(p, d)
  {
    if p in fixed then []
    else
      match Move(p, d)
      case None => [p]
      case Some(q) => [p] + Run(q, d, fixed)
  }

  /** The run is contiguous: its k-th cell is k steps from the start. */
  lemma {:induction false} RunIsContiguous(p: Position, d: Direction, fixed: set<Coord>, k: nat)
    requires k < |Run(p, d, fixed)|
    ensures Run(p, d, fixed)[k] == Shift(p, d, k)
    decreases StepsToBorder(p, d)
  {
    if k > 0 {
      var q := Move(p, d).value;
      RunIsContiguous(q, d, fixed, k - 1);
    }
  }

  /** The run stops for one of the two reasons the source names: it reached
      the border (one cell per step to the border, plus the start), or the
      next cell holds a Fixed box. */
  lemma {:induction false} RunStops(p: Position, d: Direction, fixed: set<Coord>)
    requires p !in fixed
    ensures 1 <= |Run(p, d, fixed)| <= GridSize
    ensures var n := |Run(p, d, fixed)|;
      n == StepsToBorder(p, d) + 1 || (n <= StepsToBorder(p, d) && Shift(p, d, n) in fixed)
    decreases StepsToBorder(p, d)
  {
    match Move(p, d)
    case None =>
      assert Run(p, d, fixed) == [p];
    case Some(q) =>
      assert Run(p, d, fixed) == [p] + Run(q, d, fixed);
      assert Shift(p, d, 1) == q;
      if q !in fixed {
        RunStops(q, d, fixed);
        var m := |Run(q, d, fixed)|;
        assert Shift(p, d, m + 1) == Shift(q, d, m);
      }
  }

  /** A cell belongs to the run exactly when it lies k steps from the start,
      within the board, and none of the cells up to it holds a Fixed box. */
  lemma {:induction false} RunMembership(p: Position, d: Direction, fixed: set<Coord>, k: nat)
    requires k <= StepsToBorder(p, d)
    ensures Shift(p, d, k) in Run(p, d, fixed) <==>
      forall j :: 0 <= j <= k ==> Shift(p, d, j) !in fixed
    decreases StepsToBorder(p, d)
  {
    assert Shift(p, d, 0) == p;
    if p !in fixed && k > 0 {
      var q := Move(p, d).value;
      RunMembership(q, d, fixed, k - 1);
      assert Run(p, d, fixed) == [p] + Run(q, d, fixed);
      ShiftFromNext(p, q, d, k - 1);
      assert Shift(p, d, k) != p;
      FreeFromNext(p, q, d, fixed, k);
    }
  }

  /** One step further from p is one step less from its neighbour q. */
  lemma ShiftFromNext(p: Position, q: Position, d: Direction, j: nat)
    requires Move(p, d) == Some(q)
    ensures Shift(p, d, j + 1) == Shift(q, d, j)
  {
  }

  /** No Fixed cell among the first k + 1 cells from p iff p is free and no
      Fixed cell among the first k from its neighbour q. */
  lemma FreeFromNext(p: Position, q: Position, d: Direction, fixed: set<Coord>, k: nat)
    requires Move(p, d) == Some(q) && k > 0
    ensures (forall j :: 0 <= j <= k ==> Shift(p, d, j) !in fixed) <==>
      p !in fixed && forall j :: 0 <= j <= k - 1 ==> Shift(q, d, j) !in fixed
  {
    assert Shift(p, d, 0) == p;
    if forall j :: 0 <= j <= k ==> Shift(p, d, j) !in fixed {
      forall j | 0 <= j <= k - 1 ensures Shift(q, d, j) !in fixed {
        ShiftFromNext(p, q, d, j);
      }
    }
    if p !in fixed && forall j :: 0 <= j <= k - 1 ==> Shift(q, d, j) !in fixed {
      forall j | 0 <= j <= k ensures Shift(p, d, j) !in fixed {
        if j > 0 {
          ShiftFromNext(p, q, d, j - 1);
        }
      }
    }
  }

  /** The cells of a sequence, as a set. */
  function Cells(s: seq<Position>): (c: set<Position>)
    ensures forall x :: x in c <==> x in s
  {
    set x | x in s
  }

  /** What remains of the run from the current cell, if any. */
  function Rest(current: Option<Position>, d: Direction, fixed: set<Coord>): seq<Position> {
    if current.Some? then Run(current.value, d, fixed) else []
  }

  /** One step of the walk. Before the step the run is the cells already
      rolled followed by the run from p. If p holds a Fixed box the run is
      complete; otherwise p was not rolled yet, and the run continues from the
      next cell, if there is one. */
  lemma RunAdvance(start: Position, d: Direction, fixed: set<Coord>, done: seq<Position>, p: Position)
    requires Run(start, d, fixed) == done + Run(p, d, fixed)
    ensures p in fixed ==> Run(start, d, fixed) == done
    ensures p !in fixed ==>
      p !in done && Cells(done + [p]) == Cells(done) + {p}
      && Run(start, d, fixed) == (done + [p]) + Rest(Move(p, d), d, fixed)
  {
    if p in fixed {
      assert done + Run(p, d, fixed) == done;
    } else {
      RunCellNotRepeated(start, d, fixed, done, p);
      CellsSnoc(done, p);
      RunContinues(start, d, fixed, done, p);
    }
  }

  lemma RunContinues(start: Position, d: Direction, fixed: set<Coord>, done: seq<Position>, p: Position)
    requires Run(start, d, fixed) == done + Run(p, d, fixed)
    requires p !in fixed
    ensures Run(start, d, fixed) == (done + [p]) + Rest(Move(p, d), d, fixed)
  {
    var rest := Rest(Move(p, d), d, fixed);
    assert Run(p, d, fixed) == [p] + rest;
    assert done + ([p] + rest) == (done + [p]) + rest;
  }

  lemma CellsSnoc(s: seq<Position>, p: Position)
    ensures Cells(s + [p]) == Cells(s) + {p}
  {
    assert forall x :: x in s + [p] <==> x in s || x == p;
  }

  lemma RunCellNotRepeated(start: Position, d: Direction, fixed: set<Coord>, done: seq<Position>, p: Position)
    requires Run(start, d, fixed) == done + Run(p, d, fixed)
    requires p !in fixed
    ensures p !in done
  {
    var i := |done|;
    assert Run(start, d, fixed)[i] == p;
    if p in done {
      var j :| 0 <= j < |done| && done[j] == p;
      assert Run(start, d, fixed)[j] == p;
      RunNoRepeats(start, d, fixed, j, i);
    }
  }

  /** No cell is rolled twice in one domino roll. */
  lemma RunNoRepeats(p: Position, d: Direction, fixed: set<Coord>, i: nat, j: nat)
    requires i < j < |Run(p, d, fixed)|
    ensures Run(p, d, fixed)[i] != Run(p, d, fixed)[j]
  {
    RunIsContiguous(p, d, fixed, i);
    RunIsContiguous(p, d, fixed, j);
    DeltaIsUnitStep(d);
  }

  /** The cell (row, col) if the guard lets it through, else nothing. */
  function Guarded(inside: bool, row: int, col: int): (r: seq<Position>)
    requires inside ==> InGrid(row, col)
    ensures |r| <= 1 && (inside <==> r == [Coord(row, col)])
  {
    if inside then [Coord(row, col)] else []
  }

  /** The cells of the plus shape around c that lie on the board, in the
      order the source stamps them: centre, up, down, left, right. */
  function PlusCells(c: Position): (r: seq<Position>)
    ensures 3 <= |r| <= 5 && r[0] == c
  {
    Guarded(true, c.row, c.column)
    + Guarded(c.row > 0, c.row - 1, c.column)
    + Guarded(c.row < GridSize - 1, c.row + 1, c.column)
    + Guarded(c.column > 0, c.row, c.column - 1)
    + Guarded(c.column < GridSize - 1, c.row, c.column + 1)
  }

  /** The stamps of stampPlusShape, guard by guard, cover PlusCells. */
  lemma GuardedStampsArePlus(c: Position, stamped: seq<Position>)
    requires stamped == [] + Guarded(true, c.row, c.column)
      + Guarded(c.row > 0, c.row - 1, c.column)
      + Guarded(c.row < GridSize - 1, c.row + 1, c.column)
      + Guarded(c.column > 0, c.row, c.column - 1)
      + Guarded(c.column < GridSize - 1, c.row, c.column + 1)
    ensures forall q :: q in stamped <==> InPlus(c, q)
  {
    assert stamped == PlusCells(c);
    forall q: Position {
      PlusCellsAreThePlus(c, q);
    }
  }

  function Distance(a: int, b: int): nat {
    if a <= b then b - a else a - b
  }

  /** The plus shape: the centre and the four cells one step away. */
  predicate InPlus(c: Position, q: Position) {
    Distance(c.row, q.row) + Distance(c.column, q.column) <= 1
  }

  /** The listed cells are exactly the plus-shape cells on the board. */
  lemma PlusCellsAreThePlus(c: Position, q: Position)
    ensures q in PlusCells(c) <==> InPlus(c, q)
  {
  }

  /** Skipping off-board neighbours leaves 3 cells at a corner, 4 on the rest
      of the border and 5 inside. */
  lemma PlusCellsCount(c: Position)
    ensures AtCorner(c.row, c.column, GridSize) ==> |PlusCells(c)| == 3
    ensures OnBorder(c.row, c.column, GridSize) && !AtCorner(c.row, c.column, GridSize) ==> |PlusCells(c)| == 4
    ensures !OnBorder(c.row, c.column, GridSize) ==> |PlusCells(c)| == 5
  {
  }

  /** A plus at the top-left corner touches exactly (0,0), (1,0) and (0,1). */
  lemma PlusAtOrigin()
    ensures PlusCells(Coord(0, 0)) == [Coord(0, 0), Coord(1, 0), Coord(0, 1)]
  {
  }

  /** The cell at row-major index i: the order in which countTargetLetter
      visits the board. */
  function CellOf(i: int): (p: Position)
    requires 0 <= i < GridSize * GridSize
    ensures GridSize * p.row + p.column == i
  {
    Coord(i / GridSize, i % GridSize)
  }

  /** Every cell is visited, at index 8 * row + column. */
  lemma CellOfIndex(p: Position)
    ensures CellOf(GridSize * p.row + p.column) == p
  {
  }

  /** A count reaches the length of the sequence iff every letter matches. */
  lemma {:induction false} CountAll(s: seq<char>, c: char)
    ensures Count(s, c) == |s| <==> forall i :: 0 <= i < |s| ==> s[i] == c
  {
    if s != [] {
      var init := s[..|s| - 1];
      CountAll(init, c);
      assert forall i :: 0 <= i < |init| ==> init[i] == s[i];
    }
  }

  /** A count is zero iff no letter matches. */
  lemma {:induction false} CountNone(s: seq<char>, c: char)
    ensures Count(s, c) == 0 <==> forall i :: 0 <= i < |s| ==> s[i] != c
  {
    if s != [] {
      var init := s[..|s| - 1];
      CountNone(init, c);
      assert forall i :: 0 <= i < |init| ==> init[i] == s[i];
    }
  }

  /** The matches among the first k letters of s. */
  function CountBelow(s: seq<char>, k: nat, c: char): nat
    requires k <= |s|
  {
    if k == 0 then 0 else CountBelow(s, k - 1, c) + Hit(s[k - 1], c)
  }

  /** Counting the first k letters one by one counts the prefix of length k. */
  lemma {:induction false} CountBelowIsCount(s: seq<char>, k: nat, c: char)
    requires k <= |s|
    ensures CountBelow(s, k, c) == Count(s[..k], c)
  {
    if k > 0 {
      CountBelowIsCount(s, k - 1, c);
      assert s[..k][..k - 1] == s[..k - 1];
    }
  }

  /** The grid. Every cell holds its own box with its own face array, so
      changing the faces of one cell changes no other cell. */
  class BoxGrid {
    const cells: array2<Box>
    var lastRolled: set<Position>

    predicate Dims() {
      cells.Length0 == GridSize && cells.Length1 == GridSize
    }

    ghost predicate Valid()
      reads cells
    {
      Dims()
      && (forall r, c :: 0 <= r < GridSize && 0 <= c < GridSize ==> cells[r, c].Valid())
      && (forall p: Position, q: Position :: Separate(p, q))
    }

    /** Two different cells hold different face arrays. */
    ghost predicate Separate(p: Position, q: Position)
      reads cells
      requires Dims()
    {
      p == q || BoxAt(p).surfaces.faces != BoxAt(q).surfaces.faces
    }

    /** The face array of cell p belongs to no other cell. */
    lemma FacesApart(p: Position)
      requires Valid()
      ensures forall q :: q != p ==> BoxAt(q).surfaces.faces != BoxAt(p).surfaces.faces
    {
      forall q ensures q != p ==> BoxAt(q).surfaces.faces != BoxAt(p).surfaces.faces {
        assert Separate(p, q);
      }
    }

    /** Builds a grid around an 8×8 array of boxes, each with its own face
        array; the random filling of the source is in module Generator. */
    constructor (boxes: array2<Box>)
      requires boxes.Length0 == GridSize && boxes.Length1 == GridSize
      requires forall r, c :: 0 <= r < GridSize && 0 <= c < GridSize ==> boxes[r, c].Valid()
      requires forall r, c, r', c' ::
        0 <= r < GridSize && 0 <= c < GridSize && 0 <= r' < GridSize && 0 <= c' < GridSize
        && (r != r' || c != c')
        ==> boxes[r, c].surfaces.faces != boxes[r', c'].surfaces.faces
      ensures Valid() && cells == boxes && lastRolled == {}
    {
      cells := boxes;
      lastRolled := {};
      new;
      forall p: Position, q: Position ensures Separate(p, q) {
        if p != q {
          assert p.row != q.row || p.column != q.column;
        }
      }
    }

    /** The face arrays of all cells: what rolls and stamps may change. */
    ghost function FaceArrays(): set<array<char>>
      reads cells
      requires Dims()
    {
      set r, c | 0 <= r < GridSize && 0 <= c < GridSize :: cells[r, c].surfaces.faces
    }

    /** getBox. */
    function BoxAt(p: Position): Box
      reads cells
      requires Dims()
    {
      cells[p.row, p.column]
    }

    function KindAt(p: Position): BoxKind
      reads cells
      requires Dims()
    {
      BoxAt(p).kind
    }

    /** Everything observable about the box in cell p. */
    function StateAt(p: Position): BoxState
      reads cells, BoxAt(p), BoxAt(p).surfaces.faces
      requires Valid()
    {
      BoxAt(p).State()
    }

    function TopAt(p: Position): (c: char)
      reads cells, BoxAt(p).surfaces.faces
      requires Valid()
      ensures c == StateAt(p).faces[TopFace]
    {
      BoxAt(p).TopSide()
    }

    /** The cells that hold a Fixed box. */
    function FixedCells(): set<Coord>
      reads cells
      requires Dims()
    {
      set r, c | 0 <= r < GridSize && 0 <= c < GridSize && cells[r, c].kind == BoxKind.Fixed
        :: Coord(r, c)
    }

    lemma FixedCellsAreFixed(p: Position)
      requires Dims()
      ensures p in FixedCells() <==> KindAt(p) == BoxKind.Fixed
    {
      if KindAt(p) == BoxKind.Fixed {
        assert cells[p.row, p.column].kind == BoxKind.Fixed;
      }
    }

    /** One box rolled in place: only cell p changes. */
    method RollBox(p: Position, d: Direction)
      requires Valid()
      modifies BoxAt(p).surfaces.faces
      ensures forall q :: StateAt(q) == if q == p then RollState(old(StateAt(q)), d) else old(StateAt(q))
    {
      FacesApart(p);
      BoxAt(p).Roll(d);
    }

    lemma FacesOfCell(p: Position)
      requires Dims()
      ensures BoxAt(p).surfaces.faces in FaceArrays()
    {
    }

    /** rollFromEdge: the recorded set is cleared; a Fixed start box fails with
        UnmovableFixed and changes nothing; otherwise every box of the run is
        rolled once in direction d, the recorded set is the run, and every
        other cell, including a blocking Fixed box, is unchanged. */
    method RollFromEdge(start: Position, d: Direction) returns (r: Outcome)
      requires Valid()
      modifies this, FaceArrays()
      ensures Valid()
      ensures KindAt(start) == BoxKind.Fixed ==>
        r == Fail(UnmovableFixed) && lastRolled == {}
        && forall q :: StateAt(q) == old(StateAt(q))
      ensures KindAt(start) != BoxKind.Fixed ==>
        r == Pass
        && lastRolled == Cells(Run(start, d, FixedCells()))
        && forall q :: StateAt(q) == if q in lastRolled then RollState(old(StateAt(q)), d) else old(StateAt(q))
    {
      lastRolled := {};
      if BoxAt(start).kind == BoxKind.Fixed {
        return Fail(UnmovableFixed);
      }
      forall p: Position ensures p in FixedCells() <==> KindAt(p) == BoxKind.Fixed {
        FixedCellsAreFixed(p);
      }
      PerformDominoRoll(start, d, FixedCells());
      r := Pass;
    }

    /** performDominoRoll: walk from start, rolling each box, until the walk
        leaves the board or meets a Fixed box. */
    method PerformDominoRoll(start: Position, d: Direction, ghost fixed: set<Coord>)
      requires Valid() && lastRolled == {}
      requires forall p: Position :: p in fixed <==> KindAt(p) == BoxKind.Fixed
      modifies this, FaceArrays()
      ensures Valid()
      ensures lastRolled == Cells(Run(start, d, fixed))
      ensures forall q :: StateAt(q) == if q in lastRolled then RollState(old(StateAt(q)), d) else old(StateAt(q))
    {
      ghost var before := Snapshot();
      ghost var done: seq<Position> := [];
      var current: Option<Position> := Some(start);
      while current.Some?
        invariant Valid()
        invariant Run(start, d, fixed) == done + Rest(current, d, fixed)
        invariant lastRolled == Cells(done)
        invariant forall q :: StateAt(q) == if q in lastRolled then RollState(before[q], d) else before[q]
        decreases if current.Some? then StepsToBorder(current.value, d) + 1 else 0
      {
        var p := current.value;
        var box := BoxAt(p);
        if box.kind == BoxKind.Fixed {
          RunAdvance(start, d, fixed, done, p);
          break;
        }
        RunAdvance(start, d, fixed, done, p);
        RollAndRecord(p, d, before);
        done := done + [p];
        current := Move(p, d);
      }
    }

    /** Everything observable about every cell, as a value. */
    ghost function Snapshot(): (m: imap<Position, BoxState>)
      reads cells, Boxes(), FaceArrays()
      requires Valid()
      ensures forall q :: q in m && m[q] == StateAt(q)
    {
      imap q: Position :: StateAt(q)
    }

    /** The boxes of all cells. */
    ghost function Boxes(): set<Box>
      reads cells
      requires Dims()
    {
      set r, c | 0 <= r < GridSize && 0 <= c < GridSize :: cells[r, c]
    }

    /** One step of the domino roll: the box in cell p, not rolled yet, is
        rolled and p is recorded; the cells rolled so far keep their relation
        to the states before the roll. */
    method RollAndRecord(p: Position, d: Direction, ghost before: imap<Position, BoxState>)
      requires Valid() && p !in lastRolled
      requires forall q :: q in before
      requires forall q :: StateAt(q) == if q in lastRolled then RollState(before[q], d) else before[q]
      modifies this, FaceArrays()
      ensures Valid() && lastRolled == old(lastRolled) + {p}
      ensures forall q :: StateAt(q) == if q in lastRolled then RollState(before[q], d) else before[q]
    {
      FacesOfCell(p);
      RollBox(p, d);
      label Rolled:
      lastRolled := lastRolled + {p};
      forall q ensures StateAt(q) == if q in lastRolled then RollState(before[q], d) else before[q] {
        assert StateAt(q) == old@Rolled(StateAt(q));
      }
    }

    /** getLastRolledPositions: the cells rolled by the last domino roll. */
    function LastRolledPositions(): set<Position>
      reads this
    {
      lastRolled
    }

    /** setBox: only the addressed cell gets the new box. The new box must own
        its face array, as every box built by the game does. */
    method SetBox(p: Position, box: Box)
      requires Valid() && box.Valid()
      requires forall q :: q != p ==> BoxAt(q).surfaces.faces != box.surfaces.faces
      modifies cells
      ensures Valid() && BoxAt(p) == box
      ensures forall q :: q != p ==> BoxAt(q) == old(BoxAt(q))
      ensures forall q :: StateAt(q) == if q == p then box.State() else old(StateAt(q))
    {
      cells[p.row, p.column] := box;
      forall a: Position, b: Position ensures Separate(a, b) {
        if a != b && a != p && b != p {
          assert old(Separate(a, b));
        } else if a != b && a == p {
          assert BoxAt(b) == old(BoxAt(b));
        } else if a != b && b == p {
          assert BoxAt(a) == old(BoxAt(a));
        }
      }
    }

    /** stampBox: the box in cell p takes the stamp (or ignores it, if it is
        Unchanging); no other cell changes. */
    method StampBox(p: Position, letter: char)
      requires Valid()
      modifies BoxAt(p).surfaces.faces
      ensures forall q :: StateAt(q) == if q == p then StampState(old(StateAt(q)), letter) else old(StateAt(q))
    {
      FacesApart(p);
      BoxAt(p).StampTopSide(letter);
    }

    /** The flip a BoxFlipper performs on the surfaces of the box in cell p;
        no other cell changes. */
    method FlipBox(p: Position)
      requires Valid()
      modifies BoxAt(p).surfaces.faces
      ensures forall q :: StateAt(q) == if q == p then FlipState(old(StateAt(q))) else old(StateAt(q))
    {
      FacesApart(p);
      BoxAt(p).surfaces.Flip();
    }

    /** stampRow: every box of the row takes the stamp, except Unchanging
        boxes; no other cell changes. */
    method StampRow(row: int, letter: char)
      requires Valid() && 0 <= row < GridSize
      modifies FaceArrays()
      ensures forall q :: StateAt(q) == if q.row == row then StampState(old(StateAt(q)), letter) else old(StateAt(q))
    {
      var col := 0;
      while col < GridSize
        invariant 0 <= col <= GridSize
        invariant forall q ::
          StateAt(q) == if q.row == row && q.column < col then StampState(old(StateAt(q)), letter) else old(StateAt(q))
      {
        var p: Position := Coord(row, col);
        FacesOfCell(p);
        StampBox(p, letter);
        col := col + 1;
      }
    }

    /** stampColumn: every box of the column takes the stamp, except
        Unchanging boxes; no other cell changes. */
    method StampColumn(col: int, letter: char)
      requires Valid() && 0 <= col < GridSize
      modifies FaceArrays()
      ensures forall q :: StateAt(q) == if q.column == col then StampState(old(StateAt(q)), letter) else old(StateAt(q))
    {
      var row := 0;
      while row < GridSize
        invariant 0 <= row <= GridSize
        invariant forall q ::
          StateAt(q) == if q.column == col && q.row < row then StampState(old(StateAt(q)), letter) else old(StateAt(q))
      {
        var p: Position := Coord(row, col);
        FacesOfCell(p);
        StampBox(p, letter);
        row := row + 1;
      }
    }

    /** stampPlusShape: the centre and each of its four neighbours that lies
        on the board take the stamp, except Unchanging boxes; no other cell
        changes. */
    method StampPlusShape(center: Position, letter: char)
      requires Valid()
      modifies FaceArrays()
      ensures forall q :: StateAt(q) == if InPlus(center, q) then StampState(old(StateAt(q)), letter) else old(StateAt(q))
    {
      var row := center.row;
      var col := center.column;
      ghost var before := imap q: Position :: StateAt(q);
      ghost var stamped := StampCentreColumn(center, letter, before);
      stamped := StampWhen(col > 0, row, col - 1, letter, before, stamped);
      stamped := StampWhen(col < GridSize - 1, row, col + 1, letter, before, stamped);
      GuardedStampsArePlus(center, stamped);
    }

    /** The first three stamps of stampPlusShape: the centre, then the cells
        above and below it when they lie on the board. */
    method StampCentreColumn(center: Position, letter: char, ghost before: imap<Position, BoxState>)
      returns (ghost stamped: seq<Position>)
      requires Valid()
      requires forall q :: q in before && StateAt(q) == before[q]
      modifies FaceArrays()
      ensures Valid() && FaceArrays() == old(FaceArrays())
      ensures stamped == [] + Guarded(true, center.row, center.column)
        + Guarded(center.row > 0, center.row - 1, center.column)
        + Guarded(center.row < GridSize - 1, center.row + 1, center.column)
      ensures forall q :: StateAt(q) == if q in stamped then StampState(before[q], letter) else before[q]
    {
      var row := center.row;
      var col := center.column;
      stamped := StampWhen(true, row, col, letter, before, []);
      stamped := StampWhen(row > 0, row - 1, col, letter, before, stamped);
      stamped := StampWhen(row < GridSize - 1, row + 1, col, letter, before, stamped);
    }

    /** One guarded stampBox of the plus shape, inside a sequence of stamps:
        the cells in `stamped` already carry the stamp over their states
        `before`; if the guard holds, cell (row, col) carries it afterwards. */
    method StampWhen(inside: bool, row: int, col: int, letter: char,
                     ghost before: imap<Position, BoxState>, ghost stamped: seq<Position>)
      returns (ghost stampedAfter: seq<Position>)
      requires Valid() && (inside ==> InGrid(row, col))
      requires forall q :: q in before && StateAt(q) == if q in stamped then StampState(before[q], letter) else before[q]
      modifies FaceArrays()
      ensures Valid() && FaceArrays() == old(FaceArrays())
      ensures stampedAfter == stamped + Guarded(inside, row, col)
      ensures forall q :: StateAt(q) == if q in stampedAfter then StampState(before[q], letter) else before[q]
    {
      stampedAfter := stamped;
      assert stamped + [] == stamped;
      if inside {
        var p: Position := Coord(row, col);
        FacesOfCell(p);
        StampBox(p, letter);
        StampIdempotent(before[p], letter);
        stampedAfter := stamped + [p];
      }
    }

    /** isEdgePosition: the cell lies on the border of the board, which is
        exactly where a roll can start. */
    function IsEdgePosition(p: Position): (b: bool)
      ensures b <==> p.row == 0 || p.row == GridSize - 1 || p.column == 0 || p.column == GridSize - 1
      ensures b <==> FromEdgePosition(p.row, p.column, GridSize) != []
    {
      EdgeDirectionCount(p.row, p.column, GridSize);
      OnBorder(p.row, p.column, GridSize)
    }

    /** isCornerPosition: both the row and the column are on the border. */
    function IsCornerPosition(p: Position): (b: bool)
      ensures b <==> (p.row == 0 || p.row == GridSize - 1) && (p.column == 0 || p.column == GridSize - 1)
      ensures b <==> |FromEdgePosition(p.row, p.column, GridSize)| == 2
    {
      EdgeDirectionCount(p.row, p.column, GridSize);
      AtCorner(p.row, p.column, GridSize)
    }

    /** Every corner is an edge cell. */
    lemma CornerIsEdge(p: Position)
      ensures IsCornerPosition(p) ==> IsEdgePosition(p)
    {
    }

    /** A cell is on the edge iff one step in some direction leaves the board. */
    lemma EdgeIffSomeExit(p: Position)
      ensures IsEdgePosition(p) <==> exists d :: Move(p, d).None?
    {
      if IsEdgePosition(p) {
        var d := if p.row == 0 then Up else if p.row == GridSize - 1 then Down
          else if p.column == 0 then Left else Right;
        assert Move(p, d).None?;
      } else {
        forall d ensures Move(p, d).Some? {
          assert StepsToBorder(p, d) > 0;
        }
      }
    }

    /** The top letters of the first k cells in row-major order. */
    ghost function TopsBelow(k: nat): (s: seq<char>)
      requires Valid() && k <= GridSize * GridSize
      reads cells, FaceArrays()
      ensures |s| == k
    {
      if k == 0 then [] else TopsBelow(k - 1) + [TopAt(CellOf(k - 1))]
    }

    /** Position i of the listing is the top letter of the i-th cell. */
    lemma {:induction false} TopsBelowAt(k: nat, i: nat)
      requires Valid() && i < k <= GridSize * GridSize
      ensures TopsBelow(k)[i] == TopAt(CellOf(i))
    {
      if i < k - 1 {
        TopsBelowAt(k - 1, i);
      }
    }

    /** The top letters of the whole board, one per cell. */
    ghost function Tops(): (s: seq<char>)
      requires Valid()
      reads cells, FaceArrays()
      ensures |s| == GridSize * GridSize
    {
      TopsBelow(GridSize * GridSize)
    }

    /** Every cell p is listed once, at index 8 * row + column. */
    lemma TopsListsEveryCell(p: Position)
      requires Valid()
      ensures Tops()[GridSize * p.row + p.column] == TopAt(p)
    {
      TopsBelowAt(GridSize * GridSize, GridSize * p.row + p.column);
      CellOfIndex(p);
    }

    /** countTargetLetter: the number of cells whose top face shows the
        letter, so between 0 and 64; 64 iff every cell shows it, 0 iff none
        does. */
    method CountTargetLetter(letter: char) returns (count: int)
      requires Valid()
      ensures count == Count(Tops(), letter) == multiset(Tops())[letter]
      ensures 0 <= count <= GridSize * GridSize
      ensures count == GridSize * GridSize <==> forall p: Position :: TopAt(p) == letter
      ensures count == 0 <==> forall p: Position :: TopAt(p) != letter
    {
      count := 0;
      var row := 0;
      while row < GridSize
        invariant 0 <= row <= GridSize
        invariant count == CountBelow(Tops(), GridSize * row, letter)
      {
        count := CountInRow(row, letter, count);
        row := row + 1;
      }
      CountBelowIsCount(Tops(), GridSize * GridSize, letter);
      assert Tops()[..GridSize * GridSize] == Tops();
      TopsCount(letter);
    }

    /** The inner loop of countTargetLetter: adds the matches of one row to
        the count of the rows above it. */
    method CountInRow(row: int, letter: char, above: int) returns (count: int)
      requires Valid() && 0 <= row < GridSize
      requires above == CountBelow(Tops(), GridSize * row, letter)
      ensures count == CountBelow(Tops(), GridSize * (row + 1), letter)
    {
      count := above;
      ghost var k: nat := GridSize * row;
      var col := 0;
      while col < GridSize
        invariant 0 <= col <= GridSize && k == GridSize * row + col
        invariant count == CountBelow(Tops(), k, letter)
      {
        TopsListsCells();
        assert CellOf(k) == Coord(row, col);
        assert Tops()[k] == cells[row, col].TopSide();
        if cells[row, col].TopSide() == letter {
          count := count + 1;
        }
        k := k + 1;
        col := col + 1;
      }
    }

    /** Index i of Tops() is the top letter of the i-th cell. */
    lemma TopsListsCells()
      requires Valid()
      ensures forall i | 0 <= i < GridSize * GridSize :: Tops()[i] == TopAt(CellOf(i))
    {
      forall i | 0 <= i < GridSize * GridSize ensures Tops()[i] == TopAt(CellOf(i)) {
        TopsBelowAt(GridSize * GridSize, i);
      }
    }

    /** The whole-board count, read cell by cell. */
    lemma TopsCount(letter: char)
      requires Valid()
      ensures Count(Tops(), letter) == multiset(Tops())[letter]
      ensures Count(Tops(), letter) == GridSize * GridSize <==> forall p: Position :: TopAt(p) == letter
      ensures Count(Tops(), letter) == 0 <==> forall p: Position :: TopAt(p) != letter
    {
      var s := Tops();
      CountIsMultiplicity(s, letter);
      CountAll(s, letter);
      CountNone(s, letter);
      TopsMatchCells(letter, true);
      TopsMatchCells(letter, false);
    }

    /** Every top letter equals (or, with same == false, differs from) the
        letter exactly when every cell's top does. */
    lemma TopsMatchCells(letter: char, same: bool)
      requires Valid()
      ensures (forall i :: 0 <= i < |Tops()| ==> (Tops()[i] == letter) == same)
          <==> (forall p: Position :: (TopAt(p) == letter) == same)
    {
      var s := Tops();
      TopsListsCells();
      if forall i :: 0 <= i < |s| ==> (s[i] == letter) == same {
        forall p: Position ensures (TopAt(p) == letter) == same {
          TopsListsEveryCell(p);
        }
      }
      if forall p: Position :: (TopAt(p) == letter) == same {
        forall i | 0 <= i < |s| ensures (s[i] == letter) == same {
          assert s[i] == TopAt(CellOf(i));
        }
      }
    }

    /** hasAnyMovableEdgeBox: top and bottom rows first, then the left and
        right columns between them; true iff some border cell holds a box
        that is not Fixed. */
    method HasAnyMovableEdgeBox() returns (r: bool)
      requires Valid()
      ensures r <==> exists p: Position :: IsEdgePosition(p) && KindAt(p) != BoxKind.Fixed
    {
      var last := GridSize - 1;
      var col := 0;
      while col < GridSize
        invariant 0 <= col <= GridSize
        invariant forall c :: 0 <= c < col ==> cells[0, c].kind == BoxKind.Fixed
        invariant forall c :: 0 <= c < col ==> cells[last, c].kind == BoxKind.Fixed
      {
        if cells[0, col].kind != BoxKind.Fixed {
          ghost var p: Position := Coord(0, col);
          assert IsEdgePosition(p) && KindAt(p) != BoxKind.Fixed;
          return true;
        }
        if cells[last, col].kind != BoxKind.Fixed {
          ghost var p: Position := Coord(last, col);
          assert IsEdgePosition(p) && KindAt(p) != BoxKind.Fixed;
          return true;
        }
        col := col + 1;
      }
      var row := 1;
      while row < last
        invariant 1 <= row <= last
        invariant forall i :: 1 <= i < row ==> cells[i, 0].kind == BoxKind.Fixed
        invariant forall i :: 1 <= i < row ==> cells[i, last].kind == BoxKind.Fixed
      {
        if cells[row, 0].kind != BoxKind.Fixed {
          ghost var p: Position := Coord(row, 0);
          assert IsEdgePosition(p) && KindAt(p) != BoxKind.Fixed;
          return true;
        }
        if cells[row, last].kind != BoxKind.Fixed {
          ghost var p: Position := Coord(row, last);
          assert IsEdgePosition(p) && KindAt(p) != BoxKind.Fixed;
          return true;
        }
        row := row + 1;
      }
      forall p: Position | IsEdgePosition(p) ensures KindAt(p) == BoxKind.Fixed {
        assert KindAt(p) == cells[p.row, p.column].kind;
      }
      return false;
    }
  }
}
