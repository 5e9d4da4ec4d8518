/** The three kinds of box. A box owns its surfaces, may hold one tool, and
    remembers whether it was opened. Regular boxes roll and take stamps,
    Unchanging boxes roll but ignore stamps, Fixed boxes ignore rolls and are
    always empty. */
module Boxes {
  import opened Outcomes
  import opened Directions
  import opened Positions
  import opened Surfaces
  import opened Tools

  datatype BoxKind = Regular | Unchanging | Fixed

  /** Everything observable about a box, as a value. */
  datatype BoxState = BoxState(kind: BoxKind, faces: Faces, tool: Option<Tool>, wasOpened: bool)

  /** The state right after construction: the base constructor clears the
      opened flag, the kind's initializer puts in its tool (none for Fixed),
      and a Fixed box then marks itself opened. */
  function Initial(kind: BoxKind, faces: Faces, tool: Option<Tool>): (s: BoxState)
    ensures s.kind == kind && s.faces == faces
    ensures s.wasOpened <==> kind == Fixed
    ensures kind == Fixed ==> s.tool == None
    ensures kind != Fixed ==> s.tool == tool
  {
    if kind == Fixed then BoxState(Fixed, faces, None, true)
    else BoxState(kind, faces, tool, false)
  }

  /** canRoll: every kind but Fixed. */
  predicate KindCanRoll(k: BoxKind) {
    k != Fixed
  }

  /** canBeStamped: every kind but Unchanging. */
  predicate KindCanBeStamped(k: BoxKind) {
    k != Unchanging
  }

  /** getBoxTypeMarker. */
  function KindMarker(k: BoxKind): (c: char)
    ensures c in "RUX"
    ensures k == Regular <==> c == 'R'
    ensures k == Unchanging <==> c == 'U'
    ensures k == Fixed <==> c == 'X'
  {
    match k
    case Regular => 'R'
    case Unchanging => 'U'
    case Fixed => 'X'
  }

  /** getContentMarker: "M" (mystery) only for a box that still holds a tool
      and was never opened; a Fixed box always shows "O". */
  function ContentMarkerOf(s: BoxState): (m: string)
    ensures m == "M" || m == "O"
    ensures m == "M" <==> s.kind != Fixed && !s.wasOpened && s.tool.Some?
  {
    if s.kind == Fixed then "O"
    else if s.wasOpened || s.tool.None? then "O"
    else "M"
  }

  /** toString: type marker, top letter and content marker joined by '-'. */
  function Describe(s: BoxState): (r: string)
    ensures |r| == 5 && r[1] == '-' && r[3] == '-'
    ensures r[0] == KindMarker(s.kind) && r[2] == s.faces[TopFace]
    ensures r[4..] == ContentMarkerOf(s)
  {
    [KindMarker(s.kind)] + "-" + [s.faces[TopFace]] + "-" + ContentMarkerOf(s)
  }

  /** roll: the faces turn unless the box is Fixed; nothing else changes. */
  function RollState(s: BoxState, d: Direction): (r: BoxState)
    ensures r.kind == s.kind && r.tool == s.tool && r.wasOpened == s.wasOpened
    ensures !KindCanRoll(s.kind) ==> r == s
  {
    if KindCanRoll(s.kind) then s.(faces := Rolled(s.faces, d)) else s
  }

  /** stampTopSide: the top face takes the letter unless the box is
      Unchanging; the other five faces, the tool and the flag stay. */
  function StampState(s: BoxState, letter: char): (r: BoxState)
    ensures r.kind == s.kind && r.tool == s.tool && r.wasOpened == s.wasOpened
    ensures forall i :: TopFace < i < 6 ==> r.faces[i] == s.faces[i]
    ensures r.faces[TopFace] == if KindCanBeStamped(s.kind) then letter else s.faces[TopFace]
  {
    if KindCanBeStamped(s.kind) then s.(faces := WithTop(s.faces, letter)) else s
  }

  /** What a BoxFlipper does to the surfaces of a box: top and bottom trade
      places; the kind, the tool and the flag stay. */
  function FlipState(s: BoxState): (r: BoxState)
    ensures r.kind == s.kind && r.tool == s.tool && r.wasOpened == s.wasOpened
    ensures r.faces[TopFace] == s.faces[BottomFace] && r.faces[BottomFace] == s.faces[TopFace]
    ensures forall i :: BottomFace < i < 6 ==> r.faces[i] == s.faces[i]
  {
    s.(faces := Flipped(s.faces))
  }

  /** Flipping twice gives back the box. */
  lemma FlipStateTwice(s: BoxState)
    ensures FlipState(FlipState(s)) == s
  {
    FlipTwiceIdentity(s.faces);
  }

  /** open: a Fixed box always refuses and changes nothing; any other box is
      marked opened, and hands out its tool if it has one, or fails with
      EmptyBox if it has none. */
  function OpenState(s: BoxState): (r: (BoxState, Result<Tool>))
    ensures r.0.kind == s.kind && r.0.faces == s.faces
    ensures r.1.Ok? <==> s.kind != Fixed && s.tool.Some?
    ensures r.1.Ok? ==> r.1.value == s.tool.value
    ensures r.1.Err? ==> r.1.error == EmptyBox
    ensures s.kind == Fixed ==> r.0 == s
    ensures s.kind != Fixed ==> r.0.wasOpened && r.0.tool == None
  {
    if s.kind == Fixed then (s, Err(EmptyBox))
    else if s.tool.None? then (s.(wasOpened := true), Err(EmptyBox))
    else (s.(tool := None, wasOpened := true), Ok(s.tool.value))
  }

  /** A tool is retrieved at most once: whatever the first open gave, a second
      open fails with EmptyBox. */
  lemma OpenAtMostOnce(s: BoxState)
    ensures OpenState(OpenState(s).0).1 == Err(EmptyBox)
  {
  }

  /** Rolling back the opposite way restores the box, whatever its kind. */
  lemma RollStateUndone(s: BoxState, d: Direction)
    ensures RollState(RollState(s, d), Opposite(d)) == s
  {
    if KindCanRoll(s.kind) {
      RollThenOpposite(s.faces, d);
    }
  }

  /** Stamping twice with the same letter is the same as stamping once. */
  lemma StampIdempotent(s: BoxState, letter: char)
    ensures StampState(StampState(s, letter), letter) == StampState(s, letter)
  {
    if KindCanBeStamped(s.kind) {
      assert WithTop(WithTop(s.faces, letter), letter) == WithTop(s.faces, letter);
    }
  }

  /** A new Unchanging box always yields its tool on the first open; a new
      Fixed box never yields one, whatever tool it was offered. */
  lemma FirstOpenByKind(faces: Faces, t: Tool, offered: Option<Tool>)
    ensures OpenState(Initial(Unchanging, faces, Some(t))).1 == Ok(t)
    ensures OpenState(Initial(Fixed, faces, offered)).1 == Err(EmptyBox)
    ensures ContentMarkerOf(Initial(Unchanging, faces, Some(t))) == "M"
    ensures ContentMarkerOf(Initial(Fixed, faces, offered)) == "O"
  {
  }

  /** A box on the grid. Its kind and its surfaces object never change; rolls
      and stamps rearrange the letters inside the surfaces in place. */
  class Box {
    const kind: BoxKind
    const surfaces: BoxSurfaces
    var containedTool: Option<Tool>
    var wasOpened: bool
    var position: Position

    ghost predicate Valid() {
      surfaces.Valid()
    }

    function State(): BoxState
      reads this, surfaces.faces
      requires Valid()
    {
      BoxState(kind, surfaces.faces[..], containedTool, wasOpened)
    }

    /** RegularBox: the tool is whatever the regular-box generator drew, which
        may be none. The surfaces object is shared with the caller, as in the
        source. */
    constructor Regular(s: BoxSurfaces, pos: Position, tool: Option<Tool>)
      requires s.Valid()
      ensures Valid() && surfaces == s && position == pos
      ensures State() == Initial(BoxKind.Regular, s.faces[..], tool)
    {
      kind := BoxKind.Regular;
      surfaces := s;
      position := pos;
      wasOpened := false;
      containedTool := tool;
    }

    /** UnchangingBox: always created holding a tool. */
    constructor Unchanging(s: BoxSurfaces, pos: Position, tool: Tool)
      requires s.Valid()
      ensures Valid() && surfaces == s && position == pos
      ensures State() == Initial(BoxKind.Unchanging, s.faces[..], Some(tool))
    {
      kind := BoxKind.Unchanging;
      surfaces := s;
      position := pos;
      wasOpened := false;
      containedTool := Some(tool);
    }

    /** FixedBox: never holds a tool and counts as opened from the start. */
    constructor Fixed(s: BoxSurfaces, pos: Position)
      requires s.Valid()
      ensures Valid() && surfaces == s && position == pos
      ensures State() == Initial(BoxKind.Fixed, s.faces[..], None)
    {
      kind := BoxKind.Fixed;
      surfaces := s;
      position := pos;
      containedTool := None;
      wasOpened := true;
    }

    function TopSide(): (c: char)
      reads surfaces.faces
      requires Valid()
      ensures c == surfaces.faces[TopFace]
    {
      surfaces.Top()
    }

    predicate CanRoll() {
      KindCanRoll(kind)
    }

    predicate CanBeStamped() {
      KindCanBeStamped(kind)
    }

    predicate IsFixed() {
      kind == BoxKind.Fixed
    }

    /** isEmpty: no tool inside. */
    predicate IsEmpty()
      reads this
    {
      containedTool.None?
    }

    function TypeMarker(): char {
      KindMarker(kind)
    }

    function ContentMarker(): (m: string)
      reads this, surfaces.faces
      requires Valid()
      ensures m == "M" <==> !IsFixed() && !wasOpened && !IsEmpty()
    {
      ContentMarkerOf(State())
    }

    function ToString(): (r: string)
      reads this, surfaces.faces
      requires Valid()
      ensures |r| == 5 && r[0] == TypeMarker() && r[2] == TopSide() && r[4..] == ContentMarker()
    {
      Describe(State())
    }

    method Roll(d: Direction)
      requires Valid()
      modifies surfaces.faces
      ensures State() == RollState(old(State()), d)
    {
      if CanRoll() {
        surfaces.RollInDirection(d);
      }
    }

    method StampTopSide(letter: char)
      requires Valid()
      modifies surfaces.faces
      ensures State() == StampState(old(State()), letter)
    {
      if CanBeStamped() {
        surfaces.SetTop(letter);
      }
    }

    method Open() returns (r: Result<Tool>)
      requires Valid()
      modifies this
      ensures position == old(position)
      ensures (State(), r) == OpenState(old(State()))
    {
      if kind == BoxKind.Fixed {
        return Err(EmptyBox);
      }
      if containedTool.None? {
        wasOpened := true;
        return Err(EmptyBox);
      }
      r := Ok(containedTool.value);
      containedTool := None;
      wasOpened := true;
    }

    method SetContainedTool(tool: Option<Tool>)
      requires Valid()
      modifies this
      ensures State() == old(State()).(tool := tool) && position == old(position)
    {
      containedTool := tool;
    }

    method SetPosition(pos: Position)
      requires Valid()
      modifies this
      ensures State() == old(State()) && position == pos
    {
      position := pos;
    }
  }
}
