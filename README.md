# Box top-side matching puzzle — a verified Dafny model

The game is played on an 8×8 grid of cubic boxes. Each box has six lettered
faces (letters A–H, no letter on more than two faces when generated), a
kind (Regular, Unchanging or Fixed), and possibly one hidden special tool. A
turn rolls a row or column of boxes from an edge cell, domino style, until the
roll leaves the grid or meets a Fixed box. The player then opens one of the
rolled boxes and applies the tool found inside. The tool may be a plus-shaped,
row or column stamp, a flipper, or a fixer. After five turns the game counts
the boxes showing the target letter on top.

This project models the engine of that game:

- the directions and their edge table;
- positions and their text forms;
- the box faces and their rolls;
- the three box kinds;
- the grid with its domino roll, stamps and score count;
- the five tools;
- the turn counter;
- the input validators;
- the constrained random generation.

Random draws are parameters:

- a `nextInt(8)` is a letter index 0..7;
- a `nextDouble()` is a percentile 0..99, standing for a draw in `[p/100, (p+1)/100)`.

Every failure the source signals with an exception is an `Error` value in a
`Result` or `Outcome`. Java's `null` string is `None`.

Objects the source updates in place are Dafny classes:

- `BoxSurfaces` over a `char` array;
- `Box`, with its tool and opened flag;
- `BoxGrid`, over an `array2<Box>` plus the set of rolled cells;
- `GameState`.

Each method of these classes is specified by a pure function on a value
snapshot (`Faces`, `BoxState`, `TurnState`). The lemmas prove the game's
properties about those functions: rolls undone by the opposite roll, at-most-once
tool retrieval, the contiguity and stop condition of the domino roll, the
plus-shape cells, and the letter constraint of generated faces.

## Model

| member | source | states |
|---|---|---|
| Directions.Opposite | src/com/groupid/boxpuzzle/model/Direction.java:47-55 | the opposite direction differs from the original and has the negated row and column deltas |
| Directions.DeltaIsUnitStep | src/com/groupid/boxpuzzle/model/Direction.java:8-24 | each direction moves one cell along exactly one axis: UP row −1, DOWN row +1, LEFT column −1, RIGHT column +1 |
| Directions.OppositeInvolution | src/com/groupid/boxpuzzle/model/Direction.java:47-55 | getOpposite applied twice gives back the direction |
| Directions.OppositePairs | src/com/groupid/boxpuzzle/model/Direction.java:47-55 | UP and DOWN are each other's opposite, and so are LEFT and RIGHT |
| Directions.FromEdgePosition | src/com/groupid/boxpuzzle/model/Direction.java:64-98 | at most two directions are returned |
| Directions.EdgeDirectionCount | src/com/groupid/boxpuzzle/model/Direction.java:64-98 | two directions exactly at a corner, one exactly on the rest of the border, none exactly inside |
| Directions.EdgeDirectionTable | src/com/groupid/boxpuzzle/model/Direction.java:75-94 | the corner pairs and single edge directions, in the source's order |
| Directions.EdgeDirectionsPointInward | src/com/groupid/boxpuzzle/model/Direction.java:64-98 | one step in any returned direction stays inside the grid |
| Positions.NewPosition | src/model/Position.java:21-27 | succeeds exactly when row and column are in 0..7, keeping both; otherwise fails with InvalidPosition |
| Positions.Move | src/model/Position.java:50-60 | none exactly when the step leaves the grid, otherwise the cell at the direction's deltas, one step nearer the border |
| Positions.MoveThenOpposite | src/model/Position.java:50-60 | a step that stays on the grid is undone by a step in the opposite direction |
| Positions.HashCodeInjective | src/model/Position.java:125-139 | equal hash codes imply equal positions, so hashCode agrees with equals |
| Positions.ToDisplayString | src/model/Position.java:114-116 | "R", the 1-based row digit, "-C", the 1-based column digit |
| Positions.FromString | src/model/Position.java:69-104 | every failure is InvalidPosition, and success needs non-null, non-blank text; what each text parses to is specified by `Positions.DisplayRoundTrip`, the form and shape lemmas and the three reject lemmas |
| Positions.FromParts | src/model/Position.java:82-104 | succeeds exactly when there are two parts, both integers, naming a 1-based cell of the grid, and returns that cell 0-based |
| Positions.FromDigitParts | src/model/Position.java:85-104 | two one-digit parts a, b give cell (a−1, b−1) |
| Positions.DashForm | src/model/Position.java:87-104 | "a-b" parses to (a−1, b−1) |
| Positions.RowDashColumnForm | src/model/Position.java:79-104 | "Ra-Cb" parses to (a−1, b−1) |
| Positions.RowColumnForm | src/model/Position.java:79-104 | "RaCb", without the dash, parses to (a−1, b−1) |
| Positions.DashShape | src/model/Position.java:87-104 | any normalized three-character "digit-dash-digit" text parses to its cell |
| Positions.RowColumnShape | src/model/Position.java:79-104 | any normalized "R digit C digit" text parses to its cell |
| Positions.RowDashColumnShape | src/model/Position.java:79-104 | any normalized "R digit - C digit" text parses to its cell |
| Positions.DisplayRoundTrip | src/model/Position.java:69-116 | fromString(toDisplayString(p)) == p for every cell |
| Positions.ParseDashExample | src/model/Position.java:87-104 | "3-5" is cell (2, 4) |
| Positions.ParseRowColumnExample | src/model/Position.java:74-104 | lower-case "r3-c5" is cell (2, 4) |
| Positions.ParseBlankPaddedExample | src/model/Position.java:74-104 | " R3C5 " is cell (2, 4) |
| Positions.ParseRejectsNullAndBlank | src/model/Position.java:70-72 | null and blank text fail with InvalidPosition |
| Positions.ParseRejectsOutOfRange | src/model/Position.java:99-102 | a digit 0 or 9 in any of the forms a-b, Ra-Cb and RaCb fails with InvalidPosition |
| Positions.ParseRejectsShape | src/model/Position.java:79-97 | text with neither R and C nor a dash fails, and so does any split that is not two parts or whose first or second part is not an integer |
| Strings.TrimLeft | src/model/Position.java:70-74 | the result starts with a visible character, and only trimmable characters were dropped in front |
| Strings.TrimRight | src/model/Position.java:70-74 | the result is a prefix ending in a visible character, and only trimmable characters were dropped behind |
| Strings.Trim | src/model/Position.java:70-74 | the result is empty or starts and ends with a visible character |
| Strings.TrimLeftSuffix | src/model/Position.java:74 | the left trim is a suffix of its input |
| Strings.AllBlankTrimsToEmpty | src/model/Position.java:70 | text made only of characters up to U+0020 trims to empty |
| Strings.TrimNoop | src/model/Position.java:74 | text starting and ending with a visible character is its own trim |
| Strings.TrimPadded | src/util/InputValidator.java:102 | any padding of characters up to U+0020 around visibly bounded text trims back to that text |
| Strings.ToUpper | src/model/Position.java:74 | same length, every character upper-cased in place |
| Strings.RemoveAll | src/model/Position.java:81 | every occurrence of the letter is gone, and every other character is kept |
| Strings.RemoveAllKeepsCounts | src/model/Position.java:81 | every other character is kept as often as it occurs |
| Strings.RemoveAllConcat | src/model/Position.java:81 | removal works piece by piece, so the kept characters stay in their order |
| Strings.MatchAt | src/model/Position.java:81 | a separator match is at most two characters and stays inside the text |
| Strings.SplitFrom | src/model/Position.java:81 | splitting always yields at least one field |
| Strings.DropTrailingEmpty | src/model/Position.java:81 | a prefix of the fields whose last field is not empty |
| Strings.DigitChar | src/model/Position.java:115 | the digit character whose value is n |
| Strings.ParseInt | src/model/Position.java:85-86 | a parsed value fits in a 32-bit int |
| Strings.ParseOneDigit | src/util/InputValidator.java:102 | a single digit parses to its value |
| Strings.ParseZeroPadded | src/util/InputValidator.java:102 | a digit after any number of zeros parses to its value, with a '+' sign to the same value and with a '-' sign to its negation |
| Surfaces.WithTop | src/model/BoxSurfaces.java:52-54 | the top face takes the letter, the other five keep theirs |
| Surfaces.WithBottom | src/model/BoxSurfaces.java:68-70 | the bottom face takes the letter, the other five keep theirs |
| Surfaces.Flipped | src/model/BoxSurfaces.java:75-79 | top and bottom trade letters, the four side faces keep theirs |
| Surfaces.Rolled | src/model/BoxSurfaces.java:85-121 | a left or right roll keeps front and back, an up or down roll keeps left and right |
| Surfaces.RollMovesTop | src/model/BoxSurfaces.java:85-121 | for each direction, which face comes to the top and where the old top goes |
| Surfaces.RollThenOpposite | src/model/BoxSurfaces.java:85-121 | rolling back the opposite way restores every face |
| Surfaces.FourRollsIdentity | src/model/BoxSurfaces.java:85-121 | four rolls the same way restore every face |
| Surfaces.TwoRollsSwapTopAndBottom | src/model/BoxSurfaces.java:85-121 | two rolls the same way swap top and bottom |
| Surfaces.FlipTwiceIdentity | src/model/BoxSurfaces.java:75-79 | flipping twice restores every face |
| Surfaces.PermutationsKeepCounts | src/model/BoxSurfaces.java:75-121 | rolls and flips keep the count of every letter |
| Surfaces.PermutationsKeepLetters | src/model/BoxSurfaces.java:75-121 | rolls and flips keep the multiset of letters |
| Surfaces.PermutationsKeepAtMostTwice | src/model/BoxSurfaces.java:75-121 | rolls and flips keep "no letter on more than two faces" |
| Surfaces.StampCanBreakAtMostTwice | src/model/BoxSurfaces.java:52-54 | stamping the top can put a letter on a third face |
| Surfaces.BoxSurfaces.constructor | src/model/BoxSurfaces.java:24-29 | the box keeps a fresh copy of the six letters |
| Surfaces.BoxSurfaces.Create | src/model/BoxSurfaces.java:24-29 | refused exactly for null or a length other than 6; otherwise a fresh copy of the letters |
| Surfaces.BoxSurfaces.SetTop | src/model/BoxSurfaces.java:52-54 | the faces become WithTop of the old faces |
| Surfaces.BoxSurfaces.SetBottom | src/model/BoxSurfaces.java:68-70 | the faces become WithBottom of the old faces |
| Surfaces.BoxSurfaces.Flip | src/model/BoxSurfaces.java:75-79 | the faces become Flipped of the old faces |
| Surfaces.BoxSurfaces.RollInDirection | src/model/BoxSurfaces.java:85-121 | the faces become Rolled of the old faces |
| Surfaces.BoxSurfaces.GetAllSurfaces | src/model/BoxSurfaces.java:127-129 | a fresh array holding the same letters |
| Surfaces.BoxSurfaces.Copy | src/model/BoxSurfaces.java:166-168 | a fresh BoxSurfaces over a fresh array with the same letters |
| Surfaces.CopyIsIndependent | src/model/BoxSurfaces.java:166-168 | rolling a copy leaves the original's letters unchanged |
| Boxes.Initial | src/model/box/Box.java:28-34 | a new box is unopened and holds its initializer's tool; a Fixed box holds none and counts as opened |
| Boxes.KindMarker | src/model/box/Box.java:40 | R, U or X, one marker per kind |
| Boxes.ContentMarkerOf | src/model/box/Box.java:154-159 | "M" exactly for a non-Fixed box that was never opened and still holds a tool, otherwise "O" |
| Boxes.Describe | src/model/box/Box.java:183-185 | type marker, '-', top letter, '-', content marker |
| Boxes.RollState | src/model/box/Box.java:62-64 | a roll changes only the faces, and a Fixed box does not change at all |
| Boxes.StampState | src/model/box/Box.java:135-137 | the top takes the letter unless the box is Unchanging; the other faces, the tool and the flag stay |
| Boxes.FlipState | src/model/tool/BoxFlipper.java:39-40 | top and bottom trade letters; the side faces, kind, tool and flag stay |
| Boxes.FlipStateTwice | src/model/tool/BoxFlipper.java:39-40 | flipping twice gives back the box |
| Boxes.OpenState | src/model/box/Box.java:108-118 | open succeeds exactly for a non-Fixed box holding a tool and returns that tool; otherwise EmptyBox. A non-Fixed box ends opened and empty, a Fixed box unchanged |
| Boxes.OpenAtMostOnce | src/model/box/Box.java:108-118 | a second open always fails with EmptyBox |
| Boxes.RollStateUndone | src/model/box/Box.java:62-64 | rolling back the opposite way restores the box |
| Boxes.StampIdempotent | src/model/box/Box.java:135-137 | stamping twice with one letter equals stamping once |
| Boxes.FirstOpenByKind | src/com/groupid/boxpuzzle/model/box/FixedBox.java:23-45 | a new Unchanging box yields its tool and shows "M"; a new Fixed box yields nothing and shows "O" |
| Boxes.Box.Regular | src/com/groupid/boxpuzzle/model/box/RegularBox.java:23-45 | the box shares the given surfaces and starts in Initial(Regular, faces, tool) |
| Boxes.Box.Unchanging | src/com/groupid/boxpuzzle/model/box/UnchangingBox.java:22-43 | the box starts in Initial(Unchanging, faces, Some(tool)) |
| Boxes.Box.Fixed | src/com/groupid/boxpuzzle/model/box/FixedBox.java:23-45 | the box starts empty and opened |
| Boxes.Box.TopSide | src/model/box/Box.java:52-54 | the letter on the top face |
| Boxes.Box.ContentMarker | src/model/box/Box.java:154-159 | "M" exactly when not Fixed, not opened and holding a tool |
| Boxes.Box.ToString | src/model/box/Box.java:183-185 | type marker, top letter and content marker at positions 0, 2 and 4 |
| Boxes.Box.Roll | src/model/box/Box.java:62-64 | the new state is RollState of the old |
| Boxes.Box.StampTopSide | src/model/box/Box.java:135-137 | the new state is StampState of the old |
| Boxes.Box.Open | src/model/box/Box.java:108-118 | the new state and the result are OpenState of the old state |
| Boxes.Box.SetContainedTool | src/model/box/Box.java:97-99 | only the tool changes |
| Boxes.Box.SetPosition | src/model/box/Box.java:173-175 | only the position changes |
| Tools.ToolNamesDistinct | src/com/groupid/boxpuzzle/model/tool/SpecialTool.java:19-29 | different tools have different names |
| ToolEffects.ToolOutcome | src/com/groupid/boxpuzzle/model/tool/SpecialTool.java:40-41 | apply fails exactly for a flipper or fixer on a Fixed box: UnmovableFixed for the flipper, BoxAlreadyFixed for the fixer |
| ToolEffects.ToolEffect | src/com/groupid/boxpuzzle/model/tool/SpecialTool.java:40-41 | a flipper or fixer changes nothing off its target or on a Fixed box, and the fixer never changes faces |
| ToolEffects.Apply | src/com/groupid/boxpuzzle/model/tool/SpecialTool.java:40-41 | the outcome is ToolOutcome, every cell ends in its ToolEffect state, and a fixed cell owns a new box |
| ToolEffects.ApplyFlipper | src/model/tool/BoxFlipper.java:30-41 | a Fixed target fails; otherwise only the target's top and bottom swap |
| ToolEffects.ApplyFixer | src/model/tool/BoxFixer.java:31-45 | a Fixed target fails; otherwise the target becomes a new Fixed box over a copy of its faces |
| ToolEffects.StampToolsNeverFail | src/model/tool/PlusShapeStamp.java:28-30 | the three stamps never fail |
| ToolEffects.StampTargetsOnlyLine | src/com/groupid/boxpuzzle/model/tool/MassRowStamp.java:27-29 | a row stamp depends only on the target's row, a column stamp only on its column |
| ToolEffects.StampsChangeOnlyTop | src/model/tool/MassColumnStamp.java:27-29 | stamps change only top faces, and no Unchanging box |
| ToolEffects.StampedCellShowsLetter | src/model/tool/PlusShapeStamp.java:28-30 | every stamped cell of a non-Unchanging box shows the letter |
| ToolEffects.FlipperTwiceRestores | src/model/tool/BoxFlipper.java:30-41 | the flipper ignores the letter, and two flips restore the cell |
| ToolEffects.FixerIsFinal | src/model/tool/BoxFixer.java:31-45 | the fixed cell keeps its faces, drops its tool, refuses to open, and a second fixer fails |
| Grid.Run | src/com/groupid/boxpuzzle/game/BoxGrid.java:137-156 | the roll is empty exactly when the start is Fixed; it starts at the start cell, has no Fixed cell, and never exceeds the distance to the border |
| Grid.RunIsContiguous | src/com/groupid/boxpuzzle/game/BoxGrid.java:137-156 | the k-th rolled cell is k steps from the start |
| Grid.RunStops | src/com/groupid/boxpuzzle/game/BoxGrid.java:141-155 | the roll stops at the border or right before a Fixed box |
| Grid.RunMembership | src/com/groupid/boxpuzzle/game/BoxGrid.java:137-156 | a cell is rolled exactly when it lies on the line with no Fixed box up to and including it |
| Grid.RunNoRepeats | src/com/groupid/boxpuzzle/game/BoxGrid.java:141-155 | no cell is rolled twice |
| Grid.PlusCells | src/com/groupid/boxpuzzle/game/BoxGrid.java:269-296 | three to five cells, the centre first |
| Grid.PlusCellsAreThePlus | src/com/groupid/boxpuzzle/game/BoxGrid.java:269-296 | the stamped cells are exactly the centre and its on-grid neighbours |
| Grid.PlusCellsCount | src/com/groupid/boxpuzzle/game/BoxGrid.java:277-296 | three cells at a corner, four on the rest of the border, five inside |
| Grid.PlusAtOrigin | src/com/groupid/boxpuzzle/game/BoxGrid.java:269-296 | a plus at (0,0) stamps (0,0), (1,0) and (0,1) |
| Grid.CellOfIndex | src/com/groupid/boxpuzzle/game/BoxGrid.java:193-202 | the count visits cell p at row-major index 8·row + column |
| Grid.BoxGrid.constructor | src/com/groupid/boxpuzzle/game/BoxGrid.java:58-61 | a valid grid over the boxes, with no rolled cells |
| Grid.BoxGrid.RollBox | src/com/groupid/boxpuzzle/game/BoxGrid.java:150 | only the given cell rolls |
| Grid.BoxGrid.RollFromEdge | src/com/groupid/boxpuzzle/game/BoxGrid.java:115-129 | the rolled set is cleared; a Fixed start fails with UnmovableFixed and changes nothing; otherwise exactly the Run cells roll and are recorded |
| Grid.BoxGrid.RollAndRecord | src/com/groupid/boxpuzzle/game/BoxGrid.java:150-151 | one step of the walk rolls one not-yet-rolled cell and records it; earlier rolled cells keep their rolled state |
| Grid.BoxGrid.PerformDominoRoll | src/com/groupid/boxpuzzle/game/BoxGrid.java:137-156 | the recorded cells are the Run, each rolled once, and every other cell is unchanged |
| Grid.BoxGrid.SetBox | src/com/groupid/boxpuzzle/game/BoxGrid.java:105-107 | only the addressed cell gets the new box |
| Grid.BoxGrid.StampBox | src/com/groupid/boxpuzzle/game/BoxGrid.java:231-234 | only the addressed cell takes the stamp |
| Grid.BoxGrid.FlipBox | src/model/tool/BoxFlipper.java:39-40 | only the addressed cell flips |
| Grid.BoxGrid.StampRow | src/com/groupid/boxpuzzle/game/BoxGrid.java:242-247 | exactly the cells of the row take the stamp |
| Grid.BoxGrid.StampColumn | src/com/groupid/boxpuzzle/game/BoxGrid.java:255-260 | exactly the cells of the column take the stamp |
| Grid.BoxGrid.StampCentreColumn | src/com/groupid/boxpuzzle/game/BoxGrid.java:274-284 | the centre and its on-board upper and lower neighbours take the stamp, no other cell changes |
| Grid.BoxGrid.StampPlusShape | src/com/groupid/boxpuzzle/game/BoxGrid.java:269-296 | exactly the plus-shape cells take the stamp |
| Grid.BoxGrid.IsEdgePosition | src/com/groupid/boxpuzzle/game/BoxGrid.java:171-175 | row or column 0 or 7, exactly the cells with a roll direction |
| Grid.BoxGrid.IsCornerPosition | src/com/groupid/boxpuzzle/game/BoxGrid.java:182-186 | row and column both 0 or 7, exactly the cells with two roll directions |
| Grid.BoxGrid.CornerIsEdge | src/com/groupid/boxpuzzle/game/BoxGrid.java:171-186 | every corner is an edge cell |
| Grid.BoxGrid.EdgeIffSomeExit | src/com/groupid/boxpuzzle/game/BoxGrid.java:171-175 | a cell is on the edge exactly when some step leaves the grid |
| Grid.BoxGrid.TopsListsEveryCell | src/com/groupid/boxpuzzle/game/BoxGrid.java:193-202 | the listing of top letters holds each cell's top at its row-major index |
| Grid.BoxGrid.CountTargetLetter | src/com/groupid/boxpuzzle/game/BoxGrid.java:193-203 | the number of cells showing the letter on top: 64 exactly when all do, 0 exactly when none does |
| Grid.BoxGrid.CountInRow | src/com/groupid/boxpuzzle/game/BoxGrid.java:196-200 | one row adds its matches to the count of the rows above |
| Grid.BoxGrid.TopsCount | src/com/groupid/boxpuzzle/game/BoxGrid.java:193-203 | the count is the letter's multiplicity among all tops, 64 exactly when every top matches, 0 exactly when none does |
| Grid.BoxGrid.HasAnyMovableEdgeBox | src/com/groupid/boxpuzzle/game/BoxGrid.java:209-223 | true exactly when some edge cell holds a non-Fixed box |
| Game.Advanced | src/game/GameState.java:54-60 | the turn goes up by one; passing turn 5 sets both over and success, and earlier flags are kept |
| Game.Ended | src/game/GameState.java:74-77 | over becomes true, success becomes the argument, and the turn stays |
| Game.AdvancesMoveCounter | src/game/GameState.java:54-60 | n advances add n to the turn; a running game stays running up to turn 5, and passing turn 5 ends it with success |
| Game.FiveTurnsThenSuccess | src/game/GameState.java:54-93 | from a new game, turns remain after fewer than five advances; after five, none remain and the game succeeded |
| Game.OperationsKeepConsistent | src/game/GameState.java:54-93 | both operations keep "past turn 5 means over, success means over", and no remaining turn ever comes back |
| Game.FailureSticksWithinTurns | src/game/GameState.java:74-77 | a game ended as a failure stays a failure while advances remain within five turns |
| Game.FailedStaysFailed | src/game/GameState.java:54-60 | advances within five turns change only the counter of a failed game |
| Game.GameState.constructor | src/game/GameState.java:20-25 | turn 1, not over, not successful, and a target letter in A..H that never changes |
| Game.GameState.AdvanceTurn | src/game/GameState.java:54-60 | the new state is Advanced of the old |
| Game.GameState.SetGameOver | src/game/GameState.java:74-77 | the new state is Ended of the old |
| Game.GameState.HasRemainingTurns | src/game/GameState.java:91-93 | true exactly when the turn is at most 5 and the game is not over |
| InputValidator.IsValidPositionFormat | src/util/InputValidator.java:19-37 | true exactly for non-null text whose trimmed upper-case form matches R[1-8]-?C[1-8] or [1-8]-[1-8]; false for blank text |
| InputValidator.ValidFormatParses | src/util/InputValidator.java:19-37 | text the format check accepts always parses, to the cell its two digits name |
| InputValidator.FormParses | src/util/InputValidator.java:27-33 | each of the three accepted shapes parses to the cell its digits name |
| InputValidator.DisplayFormIsValid | src/util/InputValidator.java:19-37 | the display form of every cell passes the format check |
| InputValidator.NumbersAreGridCoordinates | src/util/InputValidator.java:44-55 | 1-based row and column numbers are valid exactly when the 0-based pair is a position |
| InputValidator.IsValidRowInput | src/util/InputValidator.java:97-107 | accepted iff the text is non-null and trims to an integer in 1..8; blank text fails because it parses to nothing |
| InputValidator.IsValidColumnInput | src/util/InputValidator.java:114-124 | accepted iff the text is non-null and trims to an integer in 1..8; blank text fails because it parses to nothing |
| InputValidator.LineInputsNameGridLines | src/util/InputValidator.java:97-124 | accepted row and column inputs name a cell of the grid once made 0-based |
| InputValidator.OneCharLineInput | src/util/InputValidator.java:97-124 | a one-character input is accepted exactly when it is a digit 1..8 |
| InputValidator.PaddedLineInput | src/util/InputValidator.java:97-124 | with any padding of characters up to U+0020, visibly bounded text is a valid row or column input iff it parses to 1..8 |
| InputValidator.NumeralLineInput | src/util/InputValidator.java:97-124 | with any padding, leading zeros and a '+' sign are accepted around a digit 1..8, as in " +05\t"; a '-' sign is always refused |
| InputValidator.IsValidYesNoChoice | src/util/InputValidator.java:131-135 | accepted text is non-null and trims to one character |
| InputValidator.IsValidDirectionChoice | src/util/InputValidator.java:142-144 | same answer as the yes/no check |
| InputValidator.ChoiceAcceptsOneOrTwo | src/util/InputValidator.java:131-135 | one character with any padding of characters up to U+0020 on either side is accepted exactly when it is 1 or 2; null is refused |
| InputValidator.IsEdgePosition | src/util/InputValidator.java:62-68 | row or column 0 or 7, exactly the cells with a roll direction |
| InputValidator.IsCornerPosition | src/util/InputValidator.java:75-81 | both on the border, exactly the cells with two directions, and always an edge |
| InputValidator.GetValidDirectionsForEdge | src/util/InputValidator.java:88-90 | Direction.fromEdgePosition on the 8×8 grid, each direction keeping the first step on the grid |
| Generator.LetterAt | src/util/RandomGenerator.java:39-49 | every draw picks a letter in A..H |
| Generator.LettersAreIndexed | src/util/RandomGenerator.java:21 | draws and letters correspond one to one through letter − 'A' |
| Generator.Fill | src/util/RandomGenerator.java:126-145 | a completed result has six letters and extends the letters accepted so far |
| Generator.FillKeepsAdmissible | src/util/RandomGenerator.java:128-142 | completing an admissible start keeps letters in A..H, none more than twice |
| Generator.GeneratedSurfacesAreValid | src/util/RandomGenerator.java:126-145 | generated faces are six letters of A..H, none on more than two faces |
| Generator.NoRedrawWhenUnneeded | src/util/RandomGenerator.java:130-142 | when no draw names a letter a third time, the faces are the drawn letters in order |
| Generator.CountsAfterAccept | src/util/RandomGenerator.java:140-141 | accepting a letter adds one to its own count and to no other |
| Generator.GenerateValidSurfaces | src/util/RandomGenerator.java:126-145 | a fresh array holding Fill's six letters, or none exactly when the draws run out |
| Generator.NextAccepted | src/util/RandomGenerator.java:135-138 | the first letter drawn that was accepted fewer than twice, with Fill carried across the skipped draws |
| Generator.RedrawExample | src/util/RandomGenerator.java:135-138 | draws A, A, A, B, B, C, C give AABBCC: the third A is drawn again |
| Generator.KindFor | src/util/RandomGenerator.java:61-70 | Regular below 85, Unchanging from 85 to 94, Fixed from 95 |
| Generator.ToolForRegularAsWritten | src/util/RandomGenerator.java:78-99 | no tool exactly when the first draw is 75 or more |
| Generator.ToolForRegular | src/util/RandomGenerator.java:28-30 | no tool exactly when the draw is 75 or more |
| Generator.RegularToolBands | src/util/RandomGenerator.java:28-30 | each tool for 15 of the 100 percentiles, no tool for 25 |
| Generator.ToolForUnchanging | src/util/RandomGenerator.java:106-120 | five equal bands of 20 points in the order PlusShapeStamp, MassRowStamp, MassColumnStamp, BoxFlipper, BoxFixer; `Generator.UnchangingToolBands` counts them |
| Generator.UnchangingToolBands | src/util/RandomGenerator.java:106-120 | each tool for 20 of the 100 percentiles, so there is always a tool |
| Generator.RegularToolBandsAsWritten | src/util/RandomGenerator.java:86-98 | once a tool is due, BoxFixer gets 40 of the 100 second-draw percentiles, PlusShapeStamp 15 |
| Generator.GenerateRandomBox | src/util/RandomGenerator.java:57-71 | a fresh box over fresh surfaces at the position, in Initial(KindFor(roll), generated faces, the kind's tool); none exactly when the letter draws run out |
| Generator.BoxTool | src/model/box/Box.java:28-34 | an Unchanging box always gets a tool, a Fixed box never; a Regular box's tool uses the corrected one-draw selection |
| Generator.GeneratedBoxIsWellFormed | src/util/RandomGenerator.java:57-71 | generated faces have no letter more than twice; an Unchanging box holds a tool and is unopened; a Fixed box is empty and opened |
| GridSetup.Generated | src/util/RandomGenerator.java:57-71 | the state of the box built from one cell's draws, with that kind and those faces |
| GridSetup.NewGrid | src/com/groupid/boxpuzzle/game/BoxGrid.java:58-78 | a fresh valid grid; each cell holds the box its draws generate, placed at that cell; no rolled cells; none exactly when some cell's letter draws run out |
| GridSetup.FillCells | src/com/groupid/boxpuzzle/game/BoxGrid.java:68-78 | an 8×8 array of generated boxes, each at its own cell over a face array of its own |
| GridSetup.GenerateAt | src/com/groupid/boxpuzzle/game/BoxGrid.java:72-73 | the box for one cell is the one its draws generate, placed at that cell over a fresh face array; none exactly when its letter draws run out |
| GridSetup.BuildRow | src/com/groupid/boxpuzzle/game/BoxGrid.java:70-75 | one row of generated boxes, left to right, over fresh, pairwise distinct face arrays |

## Findings

| source | as written | input that shows it | evidently intended | confidence | as-written member | corrected member |
|---|---|---|---|---|---|---|
| src/util/RandomGenerator.java:86-98 | once the first draw grants a tool, a second draw picks it. Four bands of 0.15 leave [0.60, 1) to BoxFixer: 40% of tool-holding boxes, 30% of all Regular boxes | first draw 0.10, second draw 0.70 gives BoxFixer, as does every second draw from 0.60 on | 15% of Regular boxes for each of the five tools and 25% empty, as the constants at lines 29-30 and the comment at line 75 state | not executed | Generator.RegularToolBandsAsWritten | Generator.RegularToolBands |

`Generator.ToolForRegularAsWritten` is the code as written. `Generator.ToolForRegular` is the corrected selection, using one draw with 15-point bands. `Generator.GenerateRandomBox` uses the corrected selection, so its `toolRoll` is that single draw.

## Left out

- `java.util.Random`: every draw is a parameter.
  - `nextInt(8)` is a letter index.
  - `nextDouble()` is a percentile.
  - The statistical claims become counts of percentiles, for example in `Generator.RegularToolBands`.
- Floating-point band edges: a band edge such as `3 * 0.15` is 0.44999999999999996 in double arithmetic. The model puts every edge at an exact hundredth, so that sliver of draws is not modelled.
- Rejection loop of `generateValidSurfaces`: the source terminates only with probability 1. The model reads the draws from a finite sequence, and `Fill`, `GenerateValidSurfaces`, `GenerateRandomBox` and `GridSetup.NewGrid` return none when the draws run out. The source has no such case.
- `randomLetter`, `chance` and `nextInt`: these are wrappers around the draw source, and `Generator.LetterAt` covers the letter pick.
- `BoxSurfaces.generateRandom`: it is `new BoxSurfaces(generateValidSurfaces())`, which `Generator.GenerateRandomBox` performs inline.
- `Integer.parseInt`: modelled for ASCII only, as an optional sign, then decimal digits, then the 32-bit range check. Unicode digits are not modelled.
- Strings.ParseInt: states only the range of a parsed value. Its behaviour on one digit is `Strings.ParseOneDigit`, and on a signed, zero-padded digit `Strings.ParseZeroPadded`. Its use by the validators is in `InputValidator.OneCharLineInput` and `InputValidator.NumeralLineInput`.
- `String.trim`, `toUpperCase`, `replace` and `split`: modelled only as far as `Position.fromString` uses them.
  - Upper-casing covers ASCII letters only.
  - `split` covers only the two separators "-" and "-?C".
- Generator.GenerateRandomBox: a Regular box gets its tool from the corrected `Generator.ToolForRegular`, one draw with 15 points per tool. The program's `RegularBox.initializeContent` calls the two-draw `generateToolForRegularBox` as written, which gives BoxFixer to 30% of Regular boxes instead of 15%. So the grid the model generates follows the intended distribution, not the program's. The as-written selection is `Generator.ToolForRegularAsWritten`, and the gap is in "## Findings".
- Generator.BoxTool: the same substitution for the Regular kind.
- GridSetup.Generated: inherits that substitution through `Generator.BoxTool`.
- Game.Advanced: the turn counter is unbounded, where Java's `currentTurn++` is a 32-bit int that would wrap after 2^31 - 1 turns. The game ends after turn 5, so the wrap cannot be reached.
- Exception messages: only which exception is thrown is modelled, as an `Error` value.
- Directions.FromEdgePosition: its own contract only bounds the length. The edge table, the per-cell counts and the inward property are `Directions.EdgeDirectionTable`, `Directions.EdgeDirectionCount` and `Directions.EdgeDirectionsPointInward`. The function takes the row, column and grid size rather than a `Position`, because `Position.move` already depends on `Direction`.
- InputValidator.IsValidYesNoChoice: its own contract states one direction only, that accepted text trims to one character. `InputValidator.ChoiceAcceptsOneOrTwo` settles every input with one visible character, whatever its padding, so together they give the exact accepted inputs.
- Strings.MatchAt: its contract states only the shape of the result; the whole parse is specified through `Positions.DisplayRoundTrip` and the form lemmas.
- Strings.SplitFrom: the same as for `Strings.MatchAt`.
- Strings.DropTrailingEmpty: the same as for `Strings.MatchAt`.
- Grid storage: `ArrayList<ArrayList<Box>>` is an `array2<Box>`.
  - `getBox(row, col)` is the same lookup as `getBox(pos)`.
  - `getLastRolledPositions` returns the set as a value, which is what the source's defensive copy gives.
- Getters that only return a field: `getRowDelta`, `getColDelta`, `getRow`, `getColumn`, `getSurfaces`, `hasBeenOpened`, `getPosition`, `getTargetLetter`, `getCurrentTurn`, `getMaxTurns`, `isGameOver`, `isGameSuccess`, `getGridSize`. Each is a field or constant of the model.
- Accessors with no contract of their own: `Box.isEmpty` (`Boxes.Box.IsEmpty`), `getBoxTypeMarker` (`Boxes.Box.TypeMarker`, through `Boxes.KindMarker`), `SpecialTool.getToolName` (`Tools.ToolName`, the name table) and `BoxSurfaces.getTop`/`getBottom` (`Surfaces.BoxSurfaces.Top`/`Bottom`). Each returns one field or one table entry, and the contracts that use them are in `Boxes.Box.ContentMarker`, `Boxes.Box.ToString`, `Tools.ToolNamesDistinct` and the `Surfaces` lemmas.
- `Box.isFixed`, `canRoll` and `canBeStamped`: predicates on the kind.
- Console rendering: `toCubeDiagram`, `BoxSurfaces.toString`, `getUsagePrompt`, the grid formatter and the game driver with its prompts.
- The interfaces `Openable`, `Rollable` and `Stampable`: declarations with no behaviour.
- Duplicate package trees: each class is modelled once.
