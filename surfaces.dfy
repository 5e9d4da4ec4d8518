/** The six lettered faces of a cubic box and how rolling, flipping and
    stamping rearrange them. Face indices follow the source: 0 top, 1 bottom,
    2 front, 3 back, 4 left, 5 right. */
module Surfaces {
  import opened Outcomes
  import opened Directions

  const TopFace: int := 0
  const BottomFace: int := 1
  const FrontFace: int := 2
  const BackFace: int := 3
  const LeftFace: int := 4
  const RightFace: int := 5

  /** The letters of a box, one per face. */
  type Faces = f: seq<char> | |f| == 6 witness ['A', 'A', 'A', 'A', 'A', 'A']

  /** Number of occurrences of letter c in s. */
  function Count(s: seq<char>, c: char): (n: nat)
    ensures n <= |s|
  {
    if s == [] then 0 else Count(s[..|s| - 1], c) + (if s[|s| - 1] == c then 1 else 0)
  }

  /** Count is the multiplicity of the letter in the bag of s. */
  lemma {:induction false} CountIsMultiplicity(s: seq<char>, c: char)
    ensures Count(s, c) == multiset(s)[c]
  {
    if s != [] {
      var init := s[..|s| - 1];
      CountIsMultiplicity(init, c);
      assert s == init + [s[|s| - 1]];
    }
  }

  function Hit(x: char, c: char): nat {
    if x == c then 1 else 0
  }

  /** The count over six faces, face by face. */
  lemma CountOfFaces(f: Faces, c: char)
    ensures Count(f, c) == Hit(f[0], c) + Hit(f[1], c) + Hit(f[2], c) + Hit(f[3], c) + Hit(f[4], c) + Hit(f[5], c)
  {
    assert f[..1][..0] == [];
    assert Count(f[..1], c) == Hit(f[0], c);
    assert f[..2][..1] == f[..1];
    assert Count(f[..2], c) == Count(f[..1], c) + Hit(f[1], c);
    assert f[..3][..2] == f[..2];
    assert Count(f[..3], c) == Count(f[..2], c) + Hit(f[2], c);
    assert f[..4][..3] == f[..3];
    assert Count(f[..4], c) == Count(f[..3], c) + Hit(f[3], c);
    assert f[..5][..4] == f[..4];
    assert Count(f[..5], c) == Count(f[..4], c) + Hit(f[4], c);
    assert f[..5] == f[..|f| - 1];
  }

  /** No letter occurs on more than two faces (the generator's guarantee). */
  predicate AtMostTwice(f: Faces) {
    forall c :: Count(f, c) <= 2
  }

  /** setTop: the top face gets the letter, every other face keeps its own. */
  function WithTop(f: Faces, letter: char): (r: Faces)
    ensures r[TopFace] == letter
    ensures forall i :: TopFace < i < 6 ==> r[i] == f[i]
  {
    f[TopFace := letter]
  }

  /** setBottom: the bottom face gets the letter, every other face keeps its own. */
  function WithBottom(f: Faces, letter: char): (r: Faces)
    ensures r[BottomFace] == letter
    ensures forall i :: 0 <= i < 6 && i != BottomFace ==> r[i] == f[i]
  {
    f[BottomFace := letter]
  }

  /** flip: top and bottom trade places, the four side faces stay. */
  function Flipped(f: Faces): (r: Faces)
    ensures r[TopFace] == f[BottomFace] && r[BottomFace] == f[TopFace]
    ensures forall i :: FrontFace <= i < 6 ==> r[i] == f[i]
  {
    [f[BottomFace], f[TopFace], f[FrontFace], f[BackFace], f[LeftFace], f[RightFace]]
  }

  /** rollInDirection: a 4-cycle on the four faces that turn about the roll
      axis; the two faces on the axis keep their letters. */
  function Rolled(f: Faces, d: Direction): (r: Faces)
    ensures d == Left || d == Right ==> r[FrontFace] == f[FrontFace] && r[BackFace] == f[BackFace]
    ensures d == Up || d == Down ==> r[LeftFace] == f[LeftFace] && r[RightFace] == f[RightFace]
  {
    match d
    case Right => [f[LeftFace], f[RightFace], f[FrontFace], f[BackFace], f[BottomFace], f[TopFace]]
    case Left => [f[RightFace], f[LeftFace], f[FrontFace], f[BackFace], f[TopFace], f[BottomFace]]
    case Up => [f[FrontFace], f[BackFace], f[BottomFace], f[TopFace], f[LeftFace], f[RightFace]]
    case Down => [f[BackFace], f[FrontFace], f[TopFace], f[BottomFace], f[LeftFace], f[RightFace]]
  }

  /** The face that a roll in direction d brings to the top, and where the old
      top goes: rolling right brings the left face up and sends the top to the
      right, and so on for the other three directions. */
  lemma RollMovesTop(f: Faces, d: Direction)
    ensures d == Right ==>
      Rolled(f, d)[TopFace] == f[LeftFace] && Rolled(f, d)[RightFace] == f[TopFace]
      && Rolled(f, d)[BottomFace] == f[RightFace] && Rolled(f, d)[LeftFace] == f[BottomFace]
    ensures d == Left ==>
      Rolled(f, d)[TopFace] == f[RightFace] && Rolled(f, d)[LeftFace] == f[TopFace]
      && Rolled(f, d)[BottomFace] == f[LeftFace] && Rolled(f, d)[RightFace] == f[BottomFace]
    ensures d == Up ==>
      Rolled(f, d)[TopFace] == f[FrontFace] && Rolled(f, d)[BackFace] == f[TopFace]
      && Rolled(f, d)[BottomFace] == f[BackFace] && Rolled(f, d)[FrontFace] == f[BottomFace]
    ensures d == Down ==>
      Rolled(f, d)[TopFace] == f[BackFace] && Rolled(f, d)[FrontFace] == f[TopFace]
      && Rolled(f, d)[BottomFace] == f[FrontFace] && Rolled(f, d)[BackFace] == f[BottomFace]
  {
  }

  /** Rolling back the opposite way restores every face. */
  lemma RollThenOpposite(f: Faces, d: Direction)
    ensures Rolled(Rolled(f, d), Opposite(d)) == f
  {
  }

  /** Four rolls the same way bring the box back to where it started. */
  lemma FourRollsIdentity(f: Faces, d: Direction)
    ensures Rolled(Rolled(Rolled(Rolled(f, d), d), d), d) == f
  {
  }

  /** Two rolls the same way are a half turn: top and bottom trade places. */
  lemma TwoRollsSwapTopAndBottom(f: Faces, d: Direction)
    ensures Rolled(Rolled(f, d), d)[TopFace] == f[BottomFace]
    ensures Rolled(Rolled(f, d), d)[BottomFace] == f[TopFace]
  {
  }

  lemma FlipTwiceIdentity(f: Faces)
    ensures Flipped(Flipped(f)) == f
  {
  }

  /** Rolls and flips only permute the faces: every letter keeps its count. */
  lemma PermutationsKeepCounts(f: Faces, d: Direction, c: char)
    ensures Count(Rolled(f, d), c) == Count(f, c)
    ensures Count(Flipped(f), c) == Count(f, c)
  {
    CountOfFaces(f, c);
    CountOfFaces(Rolled(f, d), c);
    CountOfFaces(Flipped(f), c);
  }

  /** Letter sequences with the same count of every letter hold the same bag. */
  lemma SameCountsSameBag(f: seq<char>, g: seq<char>)
    requires forall c :: Count(f, c) == Count(g, c)
    ensures multiset(f) == multiset(g)
  {
    forall c ensures multiset(f)[c] == multiset(g)[c] {
      CountIsMultiplicity(f, c);
      CountIsMultiplicity(g, c);
    }
  }

  /** So the bag of letters is the same after a roll or a flip. */
  lemma PermutationsKeepLetters(f: Faces, d: Direction)
    ensures multiset(Rolled(f, d)) == multiset(f)
    ensures multiset(Flipped(f)) == multiset(f)
  {
    var r, l := Rolled(f, d), Flipped(f);
    forall c ensures Count(r, c) == Count(f, c) && Count(l, c) == Count(f, c) {
      PermutationsKeepCounts(f, d, c);
    }
    SameCountsSameBag(r, f);
    SameCountsSameBag(l, f);
  }

  /** Hence the at-most-twice guarantee survives rolls and flips. */
  lemma PermutationsKeepAtMostTwice(f: Faces, d: Direction)
    requires AtMostTwice(f)
    ensures AtMostTwice(Rolled(f, d)) && AtMostTwice(Flipped(f))
  {
    forall c ensures Count(Rolled(f, d), c) <= 2 && Count(Flipped(f), c) <= 2 {
      PermutationsKeepCounts(f, d, c);
    }
  }

  /** Stamping is not a permutation: it can give a letter a third face. */
  lemma StampCanBreakAtMostTwice(f: Faces)
    requires f == ['A', 'A', 'B', 'B', 'C', 'C']
    ensures AtMostTwice(f)
    ensures !AtMostTwice(WithTop(f, 'B'))
  {
    forall c ensures Count(f, c) <= 2 {
      CountOfFaces(f, c);
    }
    var g := WithTop(f, 'B');
    CountOfFaces(g, 'B');
  }

  /** A box's six faces, held in an array of its own and rearranged in place. */
  class BoxSurfaces {
    const faces: array<char>

    ghost predicate Valid() {
      faces.Length == 6
    }

    /** The letters as a value. */
    ghost function Letters(): Faces
      reads faces
      requires Valid()
    {
      faces[..]
    }

    /** Stores its own copy of the letters; the caller's array stays independent. */
    constructor (letters: array<char>)
      requires letters.Length == 6
      ensures Valid() && fresh(faces)
      ensures faces[..] == letters[..]
    {
      faces := new char[6](i requires 0 <= i < 6 reads letters => letters[i]);
    }

    /** The constructor's argument check: a null array or one that does not hold
        exactly six letters is refused. */
    static method Create(letters: array?<char>) returns (r: Option<BoxSurfaces>)
      ensures r.None? <==> letters == null || letters.Length != 6
      ensures r.Some? ==>
        letters != null && fresh(r.value) && fresh(r.value.faces)
        && r.value.Valid() && r.value.faces[..] == letters[..]
    {
      if letters == null || letters.Length != 6 {
        return None;
      }
      var s := new BoxSurfaces(letters);
      return Some(s);
    }

    function Top(): char
      reads faces
      requires Valid()
    {
      faces[TopFace]
    }

    function Bottom(): char
      reads faces
      requires Valid()
    {
      faces[BottomFace]
    }

    method SetTop(letter: char)
      requires Valid()
      modifies faces
      ensures faces[..] == WithTop(old(faces[..]), letter)
    {
      faces[TopFace] := letter;
    }

    method SetBottom(letter: char)
      requires Valid()
      modifies faces
      ensures faces[..] == WithBottom(old(faces[..]), letter)
    {
      faces[BottomFace] := letter;
    }

    method Flip()
      requires Valid()
      modifies faces
      ensures faces[..] == Flipped(old(faces[..]))
    {
      var temp := faces[TopFace];
      faces[TopFace] := faces[BottomFace];
      faces[BottomFace] := temp;
    }

    method RollInDirection(d: Direction)
      requires Valid()
      modifies faces
      ensures faces[..] == Rolled(old(faces[..]), d)
    {
      var temp: char;
      match d {
        case Right =>
          temp := faces[LeftFace];
          faces[LeftFace] := faces[BottomFace];
          faces[BottomFace] := faces[RightFace];
          faces[RightFace] := faces[TopFace];
          faces[TopFace] := temp;
        case Left =>
          temp := faces[RightFace];
          faces[RightFace] := faces[BottomFace];
          faces[BottomFace] := faces[LeftFace];
          faces[LeftFace] := faces[TopFace];
          faces[TopFace] := temp;
        case Up =>
          temp := faces[FrontFace];
          faces[FrontFace] := faces[BottomFace];
          faces[BottomFace] := faces[BackFace];
          faces[BackFace] := faces[TopFace];
          faces[TopFace] := temp;
        case Down =>
          temp := faces[BackFace];
          faces[BackFace] := faces[BottomFace];
          faces[BottomFace] := faces[FrontFace];
          faces[FrontFace] := faces[TopFace];
          faces[TopFace] := temp;
      }
    }

    /** getAllSurfaces: a fresh array with the same letters. */
    method GetAllSurfaces() returns (a: array<char>)
      requires Valid()
      ensures fresh(a) && a[..] == faces[..]
    {
      a := new char[6](i requires 0 <= i < 6 reads faces => faces[i]);
    }

    /** copy: an independent BoxSurfaces with the same letters. */
    method Copy() returns (c: BoxSurfaces)
      requires Valid()
      ensures fresh(c) && fresh(c.faces) && c.Valid()
      ensures c.faces[..] == faces[..]
    {
      var letters := new char[6](i requires 0 <= i < 6 reads faces => faces[i]);
      c := new BoxSurfaces(letters);
    }
  }

  /** Rolling a copy leaves the original untouched. */
  method CopyIsIndependent(s: BoxSurfaces, d: Direction) returns (c: BoxSurfaces)
    requires s.Valid()
    ensures fresh(c) && c.faces != s.faces
    ensures s.faces[..] == old(s.faces[..])
    ensures c.faces[..] == Rolled(s.faces[..], d)
  {
    c := s.Copy();
    c.RollInDirection(d);
  }
}
