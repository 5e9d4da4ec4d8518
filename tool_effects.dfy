/** What each special tool does to the grid when applied with a target
    letter and a target cell. Stamping tools never fail; BoxFlipper refuses a
    Fixed target with UnmovableFixed and BoxFixer refuses one with
    BoxAlreadyFixed, and a refused tool changes nothing. */
module ToolEffects {
  import opened Outcomes
  import opened Positions
  import opened Surfaces
  import opened Tools
  import opened Boxes
  import opened Grid

  /** The outcome of apply, which depends only on the tool and the kind of
      the box in the target cell. */
  function ToolOutcome(tool: Tool, targetKind: BoxKind): (r: Outcome)
    ensures r.Fail? <==> (tool == BoxFlipper || tool == BoxFixer) && targetKind == Fixed
    ensures r.Fail? ==> r.error == UnmovableFixed || r.error == BoxAlreadyFixed
    ensures r == Fail(UnmovableFixed) <==> tool == BoxFlipper && targetKind == Fixed
    ensures r == Fail(BoxAlreadyFixed) <==> tool == BoxFixer && targetKind == Fixed
  {
    match tool
    case BoxFlipper => if targetKind == Fixed then Fail(UnmovableFixed) else Pass
    case BoxFixer => if targetKind == Fixed then Fail(BoxAlreadyFixed) else Pass
    case _ => Pass
  }

  /** The state of cell q after apply, given its state s before. */
  function ToolEffect(tool: Tool, letter: char, target: Position, q: Position, s: BoxState): (r: BoxState)
    ensures (tool == BoxFlipper || tool == BoxFixer) && (q != target || s.kind == Fixed) ==> r == s
    ensures r.faces != s.faces ==> tool != BoxFixer
  {
    match tool
    case PlusShapeStamp => if InPlus(target, q) then StampState(s, letter) else s
    case MassRowStamp => if q.row == target.row then StampState(s, letter) else s
    case MassColumnStamp => if q.column == target.column then StampState(s, letter) else s
    case BoxFlipper => if q == target && s.kind != Fixed then FlipState(s) else s
    case BoxFixer => if q == target && s.kind != Fixed then Initial(Fixed, s.faces, None) else s
  }

  /** apply: the outcome is ToolOutcome and every cell ends in the state
      ToolEffect gives; the Fixed box a BoxFixer puts in owns a new copy of
      the old faces. */
  method Apply(tool: Tool, grid: BoxGrid, letter: char, target: Position) returns (r: Outcome)
    requires grid.Valid()
    modifies grid.cells, grid.FaceArrays()
    ensures grid.Valid()
    ensures r == ToolOutcome(tool, old(grid.KindAt(target)))
    ensures forall q :: grid.StateAt(q) == ToolEffect(tool, letter, target, q, old(grid.StateAt(q)))
    ensures tool == BoxFixer && r.Pass? ==>
      fresh(grid.BoxAt(target)) && fresh(grid.BoxAt(target).surfaces.faces)
  {
    match tool
    case PlusShapeStamp =>
      grid.StampPlusShape(target, letter);
      r := Pass;
    case MassRowStamp =>
      grid.StampRow(target.row, letter);
      r := Pass;
    case MassColumnStamp =>
      grid.StampColumn(target.column, letter);
      r := Pass;
    case BoxFlipper =>
      r := ApplyFlipper(grid, target);
    case BoxFixer =>
      r := ApplyFixer(grid, target);
  }

  /** BoxFlipper.apply: a Fixed target is refused; any other box, Unchanging
      ones included, has its top and bottom swapped. */
  method ApplyFlipper(grid: BoxGrid, target: Position) returns (r: Outcome)
    requires grid.Valid()
    modifies grid.FaceArrays()
    ensures r == ToolOutcome(BoxFlipper, old(grid.KindAt(target)))
    ensures forall q :: grid.StateAt(q) == ToolEffect(BoxFlipper, ' ', target, q, old(grid.StateAt(q)))
  {
    var box := grid.BoxAt(target);
    if box.kind == Fixed {
      return Fail(UnmovableFixed);
    }
    grid.FacesOfCell(target);
    grid.FlipBox(target);
    r := Pass;
  }

  /** BoxFixer.apply: a Fixed target is refused; any other box is replaced by
      a new Fixed box over a copy of its faces, which drops its tool. */
  method ApplyFixer(grid: BoxGrid, target: Position) returns (r: Outcome)
    requires grid.Valid()
    modifies grid.cells
    ensures grid.Valid()
    ensures r == ToolOutcome(BoxFixer, old(grid.KindAt(target)))
    ensures forall q :: grid.StateAt(q) == ToolEffect(BoxFixer, ' ', target, q, old(grid.StateAt(q)))
    ensures r.Pass? ==> fresh(grid.BoxAt(target)) && fresh(grid.BoxAt(target).surfaces.faces)
  {
    var box := grid.BoxAt(target);
    if box.kind == Fixed {
      return Fail(BoxAlreadyFixed);
    }
    var copy := box.surfaces.Copy();
    var fixedBox := new Box.Fixed(copy, target);
    grid.SetBox(target, fixedBox);
    r := Pass;
  }

  /** The stamping tools and the flipper never fail; only a Fixed target
      makes the flipper or the fixer fail. */
  lemma StampToolsNeverFail(k: BoxKind)
    ensures ToolOutcome(PlusShapeStamp, k) == Pass
    ensures ToolOutcome(MassRowStamp, k) == Pass
    ensures ToolOutcome(MassColumnStamp, k) == Pass
  {
  }

  /** A row stamp depends only on the row of its target, a column stamp only
      on the column. */
  lemma StampTargetsOnlyLine(letter: char, t: Position, u: Position, q: Position, s: BoxState)
    ensures t.row == u.row ==> ToolEffect(MassRowStamp, letter, t, q, s) == ToolEffect(MassRowStamp, letter, u, q, s)
    ensures t.column == u.column ==>
      ToolEffect(MassColumnStamp, letter, t, q, s) == ToolEffect(MassColumnStamp, letter, u, q, s)
  {
  }

  /** Stamping tools change only the top face: the other five faces, the
      kind, the tool and the flag of every cell are kept, and an Unchanging
      box keeps its top as well. */
  lemma StampsChangeOnlyTop(tool: Tool, letter: char, t: Position, q: Position, s: BoxState)
    requires tool == PlusShapeStamp || tool == MassRowStamp || tool == MassColumnStamp
    ensures var r := ToolEffect(tool, letter, t, q, s);
      r.kind == s.kind && r.tool == s.tool && r.wasOpened == s.wasOpened
      && (forall i :: TopFace < i < 6 ==> r.faces[i] == s.faces[i])
      && (s.kind == Unchanging ==> r == s)
  {
  }

  /** A stamped cell of a non-Unchanging box shows the letter on top. */
  lemma StampedCellShowsLetter(tool: Tool, letter: char, t: Position, q: Position, s: BoxState)
    requires s.kind != Unchanging
    ensures tool == PlusShapeStamp && InPlus(t, q) ==> ToolEffect(tool, letter, t, q, s).faces[TopFace] == letter
    ensures tool == MassRowStamp && q.row == t.row ==> ToolEffect(tool, letter, t, q, s).faces[TopFace] == letter
    ensures tool == MassColumnStamp && q.column == t.column ==>
      ToolEffect(tool, letter, t, q, s).faces[TopFace] == letter
  {
  }

  /** The flipper ignores the letter, and flipping the same cell twice
      restores it. */
  lemma FlipperTwiceRestores(letter: char, other: char, t: Position, q: Position, s: BoxState)
    ensures ToolEffect(BoxFlipper, letter, t, q, s) == ToolEffect(BoxFlipper, other, t, q, s)
    ensures ToolEffect(BoxFlipper, letter, t, q, ToolEffect(BoxFlipper, other, t, q, s)) == s
  {
    if q == t && s.kind != Fixed {
      FlipStateTwice(s);
    }
  }

  /** After a BoxFixer, the target is Fixed with the old faces, holds no
      tool, refuses to open, and a second BoxFixer there fails. */
  lemma FixerIsFinal(letter: char, t: Position, s: BoxState)
    requires s.kind != Fixed
    ensures var r := ToolEffect(BoxFixer, letter, t, t, s);
      r.kind == Fixed && r.faces == s.faces && r.tool == None
      && OpenState(r).1 == Err(EmptyBox)
      && ToolOutcome(BoxFixer, r.kind) == Fail(BoxAlreadyFixed)
  {
  }
}
