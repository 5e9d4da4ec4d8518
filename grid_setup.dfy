/** Filling a new grid: one generated box per cell, row by row. Each box
    takes its own draws, so the random source is a table of draws indexed by
    row and column. */
module GridSetup {
  import opened Outcomes
  import opened Positions
  import opened Boxes
  import opened Generator
  import opened Grid

  /** The draws generateRandomBox makes for one box: the kind percentile, the
      letter indices of its surfaces and the tool percentile. */
  datatype BoxDraw = BoxDraw(roll: int, letters: seq<int>, toolRoll: int)

  predicate DrawOk(d: BoxDraw) {
    0 <= d.roll < 100 && 0 <= d.toolRoll < 100 && LetterDraws(d.letters)
  }

  /** An 8×8 table of usable draws. */
  predicate DrawTable(draws: seq<seq<BoxDraw>>) {
    |draws| == GridSize
    && (forall r :: 0 <= r < GridSize ==> |draws[r]| == GridSize)
    && (forall r, c :: 0 <= r < GridSize && 0 <= c < GridSize ==> DrawOk(draws[r][c]))
  }

  /** Whether the letter draws of a box suffice for its six surfaces. */
  predicate Suffices(d: BoxDraw) {
    LetterDraws(d.letters) && Fill(d.letters, 0, []).Some?
  }

  /** The state of the box generateRandomBox builds from its draws. */
  function Generated(d: BoxDraw): (s: BoxState)
    requires DrawOk(d) && Suffices(d)
    ensures s.kind == KindFor(d.roll) && s.faces == Fill(d.letters, 0, []).value
  {
    Initial(KindFor(d.roll), Fill(d.letters, 0, []).value, BoxTool(KindFor(d.roll), d.toolRoll))
  }

  /** The BoxGrid constructor with initializeGrid: every cell gets the box
      its draws generate, placed at that cell, with a face array of its own,
      and no cell has been rolled yet. None when some box runs out of letter
      draws. */
  method NewGrid(draws: seq<seq<BoxDraw>>) returns (g: Option<BoxGrid>)
    requires DrawTable(draws)
    ensures g.None? <==> exists r, c :: 0 <= r < GridSize && 0 <= c < GridSize && !Suffices(draws[r][c])
    ensures g.Some? ==>
      fresh(g.value) && fresh(g.value.cells) && g.value.Valid() && g.value.lastRolled == {}
      && forall p: Position ::
           Suffices(draws[p.row][p.column])
           && g.value.StateAt(p) == Generated(draws[p.row][p.column])
           && g.value.BoxAt(p).position == p
  {
    var boxes := FillCells(draws);
    if boxes.None? {
      return None;
    }
    var grid := new BoxGrid(boxes.value);
    forall p: Position
      ensures Suffices(draws[p.row][p.column])
      ensures grid.StateAt(p) == Generated(draws[p.row][p.column])
      ensures grid.BoxAt(p).position == p
    {
      assert grid.BoxAt(p) == boxes.value[p.row, p.column];
    }
    return Some(grid);
  }

  /** The nested loops of initializeGrid: each row is built as a list of
      generated boxes, then the rows become the 8×8 array. */
  method FillCells(draws: seq<seq<BoxDraw>>) returns (r: Option<array2<Box>>)
    requires DrawTable(draws)
    ensures r.None? <==> exists i, j :: 0 <= i < GridSize && 0 <= j < GridSize && !Suffices(draws[i][j])
    ensures r.Some? ==>
      fresh(r.value) && r.value.Length0 == GridSize && r.value.Length1 == GridSize
      && (forall i, j :: 0 <= i < GridSize && 0 <= j < GridSize ==>
            r.value[i, j].Valid() && Suffices(draws[i][j])
            && r.value[i, j].State() == Generated(draws[i][j]) && r.value[i, j].position == Coord(i, j))
      && (forall i, j, i', j' ::
            0 <= i < GridSize && 0 <= j < GridSize && 0 <= i' < GridSize && 0 <= j' < GridSize
            && (i != i' || j != j')
            ==> r.value[i, j].surfaces.faces != r.value[i', j'].surfaces.faces)
  {
    var rows: seq<seq<Box>> := [];
    var row := 0;
    while row < GridSize
      invariant 0 <= row <= GridSize && |rows| == row
      invariant forall i :: 0 <= i < row ==> |rows[i]| == GridSize
      invariant forall i, j :: 0 <= i < row && 0 <= j < GridSize ==> BuiltAt(rows[i][j], draws[i][j], Coord(i, j))
      invariant DistinctFaces(rows)
    {
      var rowList := BuildRow(draws, row);
      if rowList.None? {
        return None;
      }
      DistinctFacesSnoc(rows, rowList.value);
      rows := rows + [rowList.value];
      row := row + 1;
    }
    var boxes := new Box[GridSize, GridSize]((i, j) requires 0 <= i < GridSize && 0 <= j < GridSize => rows[i][j]);
    return Some(boxes);
  }

  /** Adding a row of new face arrays, pairwise different, keeps all face
      arrays different. */
  lemma DistinctFacesSnoc(g: seq<seq<Box>>, row: seq<Box>)
    requires DistinctFaces(g)
    requires forall j, j' :: 0 <= j < j' < |row| ==> row[j].surfaces.faces != row[j'].surfaces.faces
    requires forall i, j, k :: 0 <= i < |g| && 0 <= j < |g[i]| && 0 <= k < |row| ==>
      g[i][j].surfaces.faces != row[k].surfaces.faces
    ensures DistinctFaces(g + [row])
  {
    var h: seq<seq<Box>> := g + [row];
    forall i, j, i', j' |
      0 <= i < |h| && 0 <= j < |h[i]| && 0 <= i' < |h| && 0 <= j' < |h[i']| && (i != i' || j != j')
      ensures h[i][j].surfaces.faces != h[i'][j'].surfaces.faces
    {
      if i < |g| && i' < |g| {
        assert h[i][j] == g[i][j] && h[i'][j'] == g[i'][j'];
      } else if i < |g| {
        assert h[i][j] == g[i][j] && h[i'][j'] == row[j'];
      } else if i' < |g| {
        assert h[i][j] == row[j] && h[i'][j'] == g[i'][j'];
      } else if j < j' {
        assert h[i][j] == row[j] && h[i'][j'] == row[j'];
      } else {
        assert h[i][j] == row[j] && h[i'][j'] == row[j'];
      }
    }
  }

  /** The inner loop of initializeGrid: the boxes of one row, left to right,
      each over a new face array. */
  method BuildRow(draws: seq<seq<BoxDraw>>, row: int) returns (r: Option<seq<Box>>)
    requires DrawTable(draws) && 0 <= row < GridSize
    ensures r.None? <==> exists j :: 0 <= j < GridSize && !Suffices(draws[row][j])
    ensures r.Some? ==>
      |r.value| == GridSize
      && (forall j :: 0 <= j < GridSize ==> BuiltAt(r.value[j], draws[row][j], Coord(row, j)))
      && (forall j :: 0 <= j < GridSize ==> fresh(r.value[j].surfaces.faces))
      && (forall j, j' :: 0 <= j < j' < GridSize ==> r.value[j].surfaces.faces != r.value[j'].surfaces.faces)
  {
    var rowList: seq<Box> := [];
    var col := 0;
    while col < GridSize
      invariant 0 <= col <= GridSize && |rowList| == col
      invariant forall j :: 0 <= j < col ==> BuiltAt(rowList[j], draws[row][j], Coord(row, j))
      invariant forall j :: 0 <= j < col ==> fresh(rowList[j].surfaces.faces)
      invariant forall j, j' :: 0 <= j < j' < col ==> rowList[j].surfaces.faces != rowList[j'].surfaces.faces
    {
      var box := GenerateAt(draws, row, col);
      if box.None? {
        return None;
      }
      rowList := rowList + [box.value];
      col := col + 1;
    }
    return Some(rowList);
  }

  /** generateRandomBox for cell (row, col), with that cell's draws. */
  method GenerateAt(draws: seq<seq<BoxDraw>>, row: int, col: int) returns (b: Option<Box>)
    requires DrawTable(draws) && 0 <= row < GridSize && 0 <= col < GridSize
    ensures b.None? <==> !Suffices(draws[row][col])
    ensures b.Some? ==> BuiltAt(b.value, draws[row][col], Coord(row, col)) && fresh(b.value.surfaces.faces)
  {
    var d := draws[row][col];
    b := GenerateRandomBox(Coord(row, col), d.roll, d.letters, d.toolRoll);
  }

  /** Box b is the box the draws d generate, valid and placed at cell p. */
  ghost predicate BuiltAt(b: Box, d: BoxDraw, p: Coord)
    reads b, b.surfaces.faces
    requires DrawOk(d)
  {
    b.Valid() && Suffices(d) && b.State() == Generated(d) && b.position == p
  }

  /** No two boxes of g share a face array. */
  ghost predicate DistinctFaces(g: seq<seq<Box>>) {
    forall i, j, i', j' ::
      0 <= i < |g| && 0 <= j < |g[i]| && 0 <= i' < |g| && 0 <= j' < |g[i']| && (i != i' || j != j')
      ==> g[i][j].surfaces.faces != g[i'][j'].surfaces.faces
  }
}
