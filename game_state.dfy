/** Progress of one game: a turn counter that runs from 1 past MaxTurns, the
    game-over and success flags, and the target letter drawn at the start. */
module Game {
  import opened Generator

  const MaxTurns: int := 5

  /** The counter and the two flags, as a value. */
  datatype TurnState = TurnState(turn: int, over: bool, success: bool)

  /** The state the constructor sets up. */
  const Start: TurnState := TurnState(1, false, false)

  /** advanceTurn: the counter goes up by one; moving past the last turn ends
      the game with success. Flags set earlier are kept otherwise. */
  function Advanced(s: TurnState): (r: TurnState)
    ensures r.turn == s.turn + 1
    ensures r.over <==> s.over || r.turn > MaxTurns
    ensures r.success <==> s.success || r.turn > MaxTurns
  {
    var t := s.turn + 1;
    if t > MaxTurns then TurnState(t, true, true) else s.(turn := t)
  }

  /** setGameOver: the game ends, with the given verdict; the counter stays. */
  function Ended(s: TurnState, success: bool): (r: TurnState)
    ensures r.turn == s.turn && r.over && r.success == success
  {
    s.(over := true, success := success)
  }

  /** hasRemainingTurns. */
  predicate Remaining(s: TurnState) {
    s.turn <= MaxTurns && !s.over
  }

  /** n calls of advanceTurn. */
  function AdvancedTimes(s: TurnState, n: nat): TurnState {
    if n == 0 then s else Advanced(AdvancedTimes(s, n - 1))
  }

  /** After n advances the counter has moved by exactly n; while the game is
      running the counter alone says whether turns remain. */
  lemma {:induction false} AdvancesMoveCounter(s: TurnState, n: nat)
    ensures AdvancedTimes(s, n).turn == s.turn + n
    ensures !s.over && !s.success && s.turn + n <= MaxTurns ==> AdvancedTimes(s, n) == TurnState(s.turn + n, false, false)
    ensures s.turn <= MaxTurns < s.turn + n ==> AdvancedTimes(s, n).over && AdvancedTimes(s, n).success
  {
    if n > 0 {
      AdvancesMoveCounter(s, n - 1);
    }
  }

  /** From a fresh game, turns remain after each of the first four advances
      and none after the fifth, which ends the game successfully. */
  lemma FiveTurnsThenSuccess(n: nat)
    ensures Remaining(Start)
    ensures n < MaxTurns ==> Remaining(AdvancedTimes(Start, n))
    ensures n >= MaxTurns ==>
      !Remaining(AdvancedTimes(Start, n)) && AdvancedTimes(Start, n).over && AdvancedTimes(Start, n).success
  {
    AdvancesMoveCounter(Start, n);
  }

  /** A game past its last turn is over, and only a game that is over can
      have succeeded. */
  predicate Consistent(s: TurnState) {
    s.turn >= 1 && (s.turn > MaxTurns ==> s.over) && (s.success ==> s.over)
  }

  /** Every operation keeps the state consistent, a game that is over stays
      over, and once no turns remain, advancing never brings one back. */
  lemma OperationsKeepConsistent(s: TurnState, success: bool)
    requires Consistent(s)
    ensures Consistent(Start)
    ensures Consistent(Advanced(s)) && Consistent(Ended(s, success))
    ensures s.over ==> Advanced(s).over
    ensures !Remaining(s) ==> !Remaining(Advanced(s)) && !Remaining(Ended(s, success))
    ensures Remaining(s) <==> s.turn <= MaxTurns && !s.over
  {
  }

  /** A game ended by setGameOver(false) is a failure that no later advance
      turns into success before the counter passes the last turn. */
  lemma FailureSticksWithinTurns(s: TurnState, n: nat)
    requires s.turn + n <= MaxTurns
    ensures !AdvancedTimes(Ended(s, false), n).success && AdvancedTimes(Ended(s, false), n).over
  {
    AdvancesMoveCounter(Ended(s, false), n);
    FailedStaysFailed(Ended(s, false), n);
  }

  lemma {:induction false} FailedStaysFailed(s: TurnState, n: nat)
    requires s.over && !s.success && s.turn + n <= MaxTurns
    ensures AdvancedTimes(s, n) == s.(turn := s.turn + n)
  {
    if n > 0 {
      FailedStaysFailed(s, n - 1);
    }
  }

  /** GameState. The target letter is fixed at construction and has no
      setter. */
  class GameState {
    const targetLetter: char
    var currentTurn: int
    var gameOver: bool
    var gameSuccess: bool

    function State(): TurnState
      reads this
    {
      TurnState(currentTurn, gameOver, gameSuccess)
    }

    /** The target letter comes from generateTargetLetter, whose nextInt(8)
        draw is the parameter. */
    constructor (letterDraw: int)
      requires 0 <= letterDraw < 8
      ensures State() == Start && targetLetter == LetterAt(letterDraw) && IsLetter(targetLetter)
    {
      targetLetter := LetterAt(letterDraw);
      currentTurn := 1;
      gameOver := false;
      gameSuccess := false;
    }

    method AdvanceTurn()
      modifies this
      ensures State() == Advanced(old(State()))
    {
      currentTurn := currentTurn + 1;
      if currentTurn > MaxTurns {
        gameOver := true;
        gameSuccess := true;
      }
    }

    method SetGameOver(success: bool)
      modifies this
      ensures State() == Ended(old(State()), success)
    {
      gameOver := true;
      gameSuccess := success;
    }

    function HasRemainingTurns(): (b: bool)
      reads this
      ensures b <==> Remaining(State())
    {
      currentTurn <= MaxTurns && !gameOver
    }
  }
}
