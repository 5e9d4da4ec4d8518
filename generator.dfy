/** The constraint-carrying part of the random generator. Every call into
    java.util.Random is a parameter here: `nextInt(8)` is a letter index in
    0..7, and `nextDouble()` is a percentile p in 0..99 standing for a draw in
    [p/100, (p+1)/100). */
module Generator {
  import opened Outcomes
  import opened Positions
  import opened Surfaces
  import opened Tools
  import opened Boxes

  /** The stamping alphabet A..H, in index order. */
  const Letters: seq<char> := ['A', 'B', 'C', 'D', 'E', 'F', 'G', 'H']

  /** A letter of the alphabet. */
  predicate IsLetter(c: char) {
    'A' <= c <= 'H'
  }

  /** randomLetter and generateTargetLetter: the letter a nextInt(8) draw picks. */
  function LetterAt(k: int): (c: char)
    requires 0 <= k < |Letters|
    ensures IsLetter(c)
  {
    Letters[k]
  }

  /** letter - 'A': where a letter sits in the alphabet. */
  function LetterIndex(c: char): int {
    c as int - 'A' as int
  }

  /** Draws and letters correspond one to one: every draw names a different
      letter, and every letter A..H is named by exactly its own index. */
  lemma LettersAreIndexed(k: int, c: char)
    requires 0 <= k < |Letters|
    ensures LetterIndex(LetterAt(k)) == k
    ensures IsLetter(c) ==> 0 <= LetterIndex(c) < |Letters| && LetterAt(LetterIndex(c)) == c
  {
  }

  /** A sequence of nextInt(8) results. */
  predicate LetterDraws(draws: seq<int>) {
    forall i :: 0 <= i < |draws| ==> 0 <= draws[i] < |Letters|
  }

  /** What generateValidSurfaces produces from the draws at index i on: each
      draw is taken in turn, a letter already accepted twice is drawn again,
      and the first six accepted letters are the faces. None when the draws
      run out first. */
  function Fill(draws: seq<int>, i: nat, acc: seq<char>): (r: Option<seq<char>>)
    requires LetterDraws(draws) && i <= |draws| && |acc| <= 6
    ensures r.Some? ==> |r.value| == 6 && r.value[..|acc|] == acc
    decreases |draws| - i
  {
    if |acc| == 6 then Some(acc)
    else if i == |draws| then None
    else
      var c := LetterAt(draws[i]);
      if Count(acc, c) >= 2 then Fill(draws, i + 1, acc)
      else Fill(draws, i + 1, acc + [c])
  }

  /** Appending one letter adds one occurrence of it and none of any other. */
  lemma CountSnoc(s: seq<char>, x: char, c: char)
    ensures Count(s + [x], c) == Count(s, c) + Hit(x, c)
  {
    assert (s + [x])[..|s|] == s;
  }

  /** Letters of A..H, none more than twice. */
  predicate Admissible(acc: seq<char>) {
    (forall i :: 0 <= i < |acc| ==> IsLetter(acc[i])) && forall c :: Count(acc, c) <= 2
  }

  /** Whatever Fill completes from an admissible start is admissible. */
  lemma {:induction false} FillKeepsAdmissible(draws: seq<int>, i: nat, acc: seq<char>)
    requires LetterDraws(draws) && i <= |draws| && |acc| <= 6 && Admissible(acc)
    ensures Fill(draws, i, acc).Some? ==> Admissible(Fill(draws, i, acc).value)
    decreases |draws| - i
  {
    if |acc| < 6 && i < |draws| {
      var c := LetterAt(draws[i]);
      if Count(acc, c) >= 2 {
        FillKeepsAdmissible(draws, i + 1, acc);
      } else {
        var next := acc + [c];
        forall x ensures Count(next, x) <= 2 {
          CountSnoc(acc, c, x);
        }
        FillKeepsAdmissible(draws, i + 1, next);
      }
    }
  }

  /** The faces generateValidSurfaces returns: exactly six letters of A..H,
      none of them on more than two faces. */
  lemma GeneratedSurfacesAreValid(draws: seq<int>)
    requires LetterDraws(draws)
    ensures Fill(draws, 0, []).Some? ==>
      var f := Fill(draws, 0, []).value;
      |f| == 6 && (forall i :: 0 <= i < 6 ==> IsLetter(f[i])) && AtMostTwice(f)
  {
    FillKeepsAdmissible(draws, 0, []);
  }

  /** The letters the draws from index i up to j name. */
  function Spelled(draws: seq<int>, i: nat, j: nat): (s: seq<char>)
    requires LetterDraws(draws) && i <= j <= |draws|
    ensures |s| == j - i
    decreases j - i
  {
    if i == j then [] else [LetterAt(draws[i])] + Spelled(draws, i + 1, j)
  }

  /** A prefix never holds more of a letter than the whole. */
  lemma {:induction false} CountPrefix(s: seq<char>, t: seq<char>, c: char)
    ensures Count(s, c) <= Count(s + t, c)
    decreases |t|
  {
    if t == [] {
      assert s + t == s;
    } else {
      var init := t[..|t| - 1];
      assert s + t == (s + init) + [t[|t| - 1]];
      CountSnoc(s + init, t[|t| - 1], c);
      CountPrefix(s, init, c);
    }
  }

  /** When the next draws never name a letter a third time, nothing is
      redrawn: the faces are the letters of those draws, in order. */
  lemma {:induction false} NoRedrawWhenUnneeded(draws: seq<int>, i: nat, j: nat, acc: seq<char>)
    requires LetterDraws(draws) && |acc| <= 6 && j == i + 6 - |acc| <= |draws|
    requires forall c :: Count(acc + Spelled(draws, i, j), c) <= 2
    ensures Fill(draws, i, acc) == Some(acc + Spelled(draws, i, j))
    decreases 6 - |acc|
  {
    if |acc| < 6 {
      var c := LetterAt(draws[i]);
      var rest := Spelled(draws, i + 1, j);
      assert acc + Spelled(draws, i, j) == (acc + [c]) + rest;
      CountPrefix(acc + [c], rest, c);
      CountSnoc(acc, c, c);
      NoRedrawWhenUnneeded(draws, i + 1, j, acc + [c]);
    } else {
      assert acc + [] == acc;
    }
  }

  /** letterCounts as a value: how often each letter of A..H occurs in s. */
  function CountsOf(s: seq<char>): (counts: seq<int>)
    ensures |counts| == 8 && forall k :: 0 <= k < 8 ==> counts[k] == Count(s, LetterAt(k))
  {
    seq(8, k requires 0 <= k < 8 => Count(s, LetterAt(k)))
  }

  /** Accepting a letter adds one to its own count and to no other. */
  lemma CountsAfterAccept(before: seq<char>, letter: char)
    requires IsLetter(letter)
    ensures var k := LetterIndex(letter);
      0 <= k < 8 && CountsOf(before + [letter]) == CountsOf(before)[k := CountsOf(before)[k] + 1]
  {
    var k := LetterIndex(letter);
    LettersAreIndexed(k, letter);
    forall j | 0 <= j < 8 ensures CountsOf(before + [letter])[j] == CountsOf(before)[k := CountsOf(before)[k] + 1][j] {
      CountSnoc(before, letter, LetterAt(j));
      LettersAreIndexed(j, letter);
    }
  }

  /** generateValidSurfaces: six letters, each accepted once the do-while
      loop has drawn one used fewer than twice; letterCounts[k] is how often
      letter k was accepted so far. */
  method GenerateValidSurfaces(draws: seq<int>) returns (r: Option<array<char>>)
    requires LetterDraws(draws)
    ensures r.None? <==> Fill(draws, 0, []).None?
    ensures r.Some? ==> fresh(r.value) && r.value[..] == Fill(draws, 0, []).value
  {
    var surfaces := new char[6];
    var letterCounts := new int[8](_ => 0);
    var next := 0;
    var i := 0;
    ghost var acc: seq<char> := [];
    assert letterCounts[..] == CountsOf(acc);
    while i < 6
      invariant 0 <= i <= 6 && 0 <= next <= |draws| && |acc| == i
      invariant surfaces[..i] == acc
      invariant Fill(draws, next, acc) == Fill(draws, 0, [])
      invariant letterCounts[..] == CountsOf(acc)
    {
      var found, letter, after := NextAccepted(draws, next, letterCounts, acc);
      if !found {
        return None;
      }
      CountsAfterAccept(acc, letter);
      var letterIndex := LetterIndex(letter);
      surfaces[i] := letter;
      letterCounts[letterIndex] := letterCounts[letterIndex] + 1;
      acc := acc + [letter];
      next := after;
      i := i + 1;
    }
    assert surfaces[..] == surfaces[..6];
    return Some(surfaces);
  }

  /** The do-while loop of generateValidSurfaces: draws letters from index
      next on until one has been accepted fewer than twice. Not found when the
      draws run out first. */
  method NextAccepted(draws: seq<int>, next: int, letterCounts: array<int>, ghost acc: seq<char>)
      returns (found: bool, letter: char, after: int)
    requires LetterDraws(draws) && 0 <= next <= |draws| && |acc| < 6
    requires letterCounts[..] == CountsOf(acc)
    ensures found ==> next < after <= |draws| && IsLetter(letter) && Count(acc, letter) < 2
    ensures found ==> Fill(draws, next, acc) == Fill(draws, after, acc + [letter])
    ensures !found ==> Fill(draws, next, acc) == None
  {
    after := next;
    while true
      invariant next <= after <= |draws|
      invariant Fill(draws, next, acc) == Fill(draws, after, acc)
      decreases |draws| - after
    {
      if after == |draws| {
        return false, 'A', after;
      }
      letter := LetterAt(draws[after]);
      var letterIndex := LetterIndex(letter);
      LettersAreIndexed(draws[after], letter);
      assert letterCounts[letterIndex] == Count(acc, letter);
      after := after + 1;
      if letterCounts[letterIndex] < 2 {
        return true, letter, after;
      }
    }
  }

  /** Example: with draws A, A, A, B, B, C, C the third A is redrawn. */
  lemma RedrawExample()
    ensures Fill([0, 0, 0, 1, 1, 2, 2], 0, []) == Some(['A', 'A', 'B', 'B', 'C', 'C'])
  {
    var d := [0, 0, 0, 1, 1, 2, 2];
    var e: seq<char> := [];
    var a1 := e + ['A'];
    var a2 := a1 + ['A'];
    var b1 := a2 + ['B'];
    var b2 := b1 + ['B'];
    var c1 := b2 + ['C'];
    var c2 := c1 + ['C'];
    RedrawExampleAs(d, e, a1, a2);
    RedrawExampleBs(d, e, a1, a2, b1, b2);
    RedrawExampleCs(d, e, a1, a2, b1, b2, c1, c2);
    assert a2 == ['A', 'A'];
    assert b2 == ['A', 'A', 'B', 'B'];
    assert c2 == ['A', 'A', 'B', 'B', 'C', 'C'];
  }

  /** The first two draws are kept and the third A is skipped. */
  lemma RedrawExampleAs(d: seq<int>, e: seq<char>, a1: seq<char>, a2: seq<char>)
    requires d == [0, 0, 0, 1, 1, 2, 2] && e == [] && a1 == e + ['A'] && a2 == a1 + ['A']
    ensures Fill(d, 0, e) == Fill(d, 3, a2)
  {
    CountSnoc(e, 'A', 'A');
    CountSnoc(a1, 'A', 'A');
    assert Fill(d, 0, e) == Fill(d, 1, a1) == Fill(d, 2, a2) == Fill(d, 3, a2);
  }

  /** Both Bs are kept. */
  lemma RedrawExampleBs(d: seq<int>, e: seq<char>, a1: seq<char>, a2: seq<char>, b1: seq<char>, b2: seq<char>)
    requires d == [0, 0, 0, 1, 1, 2, 2] && e == [] && a1 == e + ['A'] && a2 == a1 + ['A']
    requires b1 == a2 + ['B'] && b2 == b1 + ['B']
    ensures Fill(d, 3, a2) == Fill(d, 5, b2)
  {
    CountSnoc(e, 'A', 'B');
    CountSnoc(a1, 'A', 'B');
    CountSnoc(a2, 'B', 'B');
    assert Fill(d, 3, a2) == Fill(d, 4, b1) == Fill(d, 5, b2);
  }

  /** Both Cs are kept, which completes the six surfaces. */
  lemma RedrawExampleCs(d: seq<int>, e: seq<char>, a1: seq<char>, a2: seq<char>, b1: seq<char>, b2: seq<char>,
                        c1: seq<char>, c2: seq<char>)
    requires d == [0, 0, 0, 1, 1, 2, 2] && e == [] && a1 == e + ['A'] && a2 == a1 + ['A']
    requires b1 == a2 + ['B'] && b2 == b1 + ['B'] && c1 == b2 + ['C'] && c2 == c1 + ['C']
    ensures Fill(d, 5, b2) == Some(c2)
  {
    CountSnoc(e, 'A', 'C');
    CountSnoc(a1, 'A', 'C');
    CountSnoc(a2, 'B', 'C');
    CountSnoc(b1, 'B', 'C');
    CountSnoc(b2, 'C', 'C');
    assert Fill(d, 5, b2) == Fill(d, 6, c1) == Fill(d, 7, c2);
  }

  /** generateRandomBox's kind: [0, 0.85) Regular, [0.85, 0.95) Unchanging,
      the rest Fixed. */
  function KindFor(p: int): (k: BoxKind)
    requires 0 <= p < 100
    ensures k == Regular <==> p < 85
    ensures k == Unchanging <==> 85 <= p < 95
    ensures k == Fixed <==> 95 <= p
  {
    if p < 85 then Regular else if p < 95 then Unchanging else Fixed
  }

  /** generateToolForUnchangingBox: five bands of 20 points, never null. */
  function ToolForUnchanging(p: int): (t: Tool)
    requires 0 <= p < 100
    ensures t == [PlusShapeStamp, MassRowStamp, MassColumnStamp, BoxFlipper, BoxFixer][p / 20]
  {
    if p < 20 then PlusShapeStamp
    else if p < 40 then MassRowStamp
    else if p < 60 then MassColumnStamp
    else if p < 80 then BoxFlipper
    else BoxFixer
  }

  /** generateToolForRegularBox as written: the first draw decides between
      no tool (from 0.75 on) and a tool, and a second draw picks the tool
      with four bands of 15 points, leaving the last 40 to BoxFixer. */
  function ToolForRegularAsWritten(roll: int, toolRoll: int): (t: Option<Tool>)
    requires 0 <= roll < 100 && 0 <= toolRoll < 100
    ensures t.None? <==> roll >= 75
  {
    if roll >= 75 then None
    else if toolRoll < 15 then Some(PlusShapeStamp)
    else if toolRoll < 30 then Some(MassRowStamp)
    else if toolRoll < 45 then Some(MassColumnStamp)
    else if toolRoll < 60 then Some(BoxFlipper)
    else Some(BoxFixer)
  }

  /** generateToolForRegularBox as its constants describe it: no tool for a
      quarter of the draws and 15 points for each of the five tools. One
      draw decides both. */
  function ToolForRegular(roll: int): (t: Option<Tool>)
    requires 0 <= roll < 100
    ensures t.None? <==> roll >= 75
  {
    if roll < 15 then Some(PlusShapeStamp)
    else if roll < 30 then Some(MassRowStamp)
    else if roll < 45 then Some(MassColumnStamp)
    else if roll < 60 then Some(BoxFlipper)
    else if roll < 75 then Some(BoxFixer)
    else None
  }

  /** How many of the percentiles below n make f give t. */
  function Tally(f: int --> Option<Tool>, t: Option<Tool>, n: nat): (k: nat)
    requires n <= 100 && forall p :: 0 <= p < 100 ==> f.requires(p)
    ensures k <= n
  {
    if n == 0 then 0 else Tally(f, t, n - 1) + (if f(n - 1) == t then 1 else 0)
  }

  /** A result that f gives exactly on the band [lo, hi) is tallied hi - lo
      times. */
  lemma {:induction false} BandTally(f: int --> Option<Tool>, t: Option<Tool>, lo: nat, hi: nat, n: nat)
    requires n <= 100 && forall p :: 0 <= p < 100 ==> f.requires(p)
    requires lo <= hi <= 100
    requires forall p :: 0 <= p < 100 ==> (f(p) == t <==> lo <= p < hi)
    ensures Tally(f, t, n) == if n <= lo then 0 else if n <= hi then n - lo else hi - lo
  {
    if n > 0 {
      BandTally(f, t, lo, hi, n - 1);
    }
  }

  /** The corrected selection gives each tool 15 of the 100 percentiles and
      no tool the remaining 25, as the constants of the source state. */
  lemma RegularToolBands(t: Tool)
    ensures Tally(ToolForRegular, Some(t), 100) == 15
    ensures Tally(ToolForRegular, None, 100) == 25
  {
    var lo := match t
      case PlusShapeStamp => 0
      case MassRowStamp => 15
      case MassColumnStamp => 30
      case BoxFlipper => 45
      case BoxFixer => 60;
    BandTally(ToolForRegular, Some(t), lo, lo + 15, 100);
    BandTally(ToolForRegular, None, 75, 100, 100);
  }

  /** The unchanging-box selection gives each tool 20 of the 100 percentiles,
      so it never yields null. */
  lemma UnchangingToolBands(t: Tool)
    ensures Tally(p requires 0 <= p < 100 => Some(ToolForUnchanging(p)), Some(t), 100) == 20
  {
    var lo := match t
      case PlusShapeStamp => 0
      case MassRowStamp => 20
      case MassColumnStamp => 40
      case BoxFlipper => 60
      case BoxFixer => 80;
    BandTally(p requires 0 <= p < 100 => Some(ToolForUnchanging(p)), Some(t), lo, lo + 20, 100);
  }

  /** As written, a box that gets a tool gets a BoxFixer for 40 of the 100
      second-draw percentiles instead of 15, and each other tool for 15. */
  lemma RegularToolBandsAsWritten(roll: int)
    requires 0 <= roll < 75
    ensures Tally(p requires 0 <= p < 100 => ToolForRegularAsWritten(roll, p), Some(BoxFixer), 100) == 40
    ensures Tally(p requires 0 <= p < 100 => ToolForRegularAsWritten(roll, p), Some(PlusShapeStamp), 100) == 15
  {
    var f := p requires 0 <= p < 100 => ToolForRegularAsWritten(roll, p);
    BandTally(f, Some(BoxFixer), 60, 100, 100);
    BandTally(f, Some(PlusShapeStamp), 0, 15, 100);
  }

  /** generateRandomBox: surfaces from generateValidSurfaces in a new
      BoxSurfaces, a kind from the first draw, and the tool the kind's
      initializer draws. None when the letter draws run out. */
  method GenerateRandomBox(pos: Position, roll: int, letterDraws: seq<int>, toolRoll: int) returns (r: Option<Box>)
    requires 0 <= roll < 100 && 0 <= toolRoll < 100 && LetterDraws(letterDraws)
    ensures r.None? <==> Fill(letterDraws, 0, []).None?
    ensures r.Some? ==>
      fresh(r.value) && fresh(r.value.surfaces) && fresh(r.value.surfaces.faces)
      && r.value.Valid() && r.value.position == pos
      && r.value.State() == Initial(KindFor(roll), Fill(letterDraws, 0, []).value, BoxTool(KindFor(roll), toolRoll))
  {
    var letters := GenerateValidSurfaces(letterDraws);
    if letters.None? {
      return None;
    }
    GeneratedSurfacesAreValid(letterDraws);
    var surfaces := new BoxSurfaces(letters.value);
    var box: Box;
    if roll < 85 {
      box := new Box.Regular(surfaces, pos, ToolForRegular(toolRoll));
    } else if roll < 95 {
      box := new Box.Unchanging(surfaces, pos, ToolForUnchanging(toolRoll));
    } else {
      box := new Box.Fixed(surfaces, pos);
    }
    return Some(box);
  }

  /** The tool the initializer of a box of kind k puts in for the draw p. */
  function BoxTool(k: BoxKind, p: int): (t: Option<Tool>)
    requires 0 <= p < 100
    ensures k == Unchanging ==> t.Some?
    ensures k == Fixed ==> t.None?
  {
    match k
    case Regular => ToolForRegular(p)
    case Unchanging => Some(ToolForUnchanging(p))
    case Fixed => None
  }

  /** A generated box: its faces are valid surfaces, an Unchanging box holds
      a tool and has not been opened, and a Fixed box is empty and opened. */
  lemma GeneratedBoxIsWellFormed(roll: int, letterDraws: seq<int>, toolRoll: int)
    requires 0 <= roll < 100 && 0 <= toolRoll < 100 && LetterDraws(letterDraws)
    requires Fill(letterDraws, 0, []).Some?
    ensures var s := Initial(KindFor(roll), Fill(letterDraws, 0, []).value, BoxTool(KindFor(roll), toolRoll));
      AtMostTwice(s.faces)
      && (s.kind == Unchanging ==> s.tool.Some? && !s.wasOpened)
      && (s.kind == Fixed ==> s.tool.None? && s.wasOpened)
      && (s.kind == Regular ==> (s.tool.None? <==> toolRoll >= 75))
  {
    GeneratedSurfacesAreValid(letterDraws);
  }
}
