/**
 * The tic-tac-toe engine: a 3x3 board that is absent until a round is
 * started, a human move that is validated and may be refused with a typed
 * error, a CPU move into some empty cell, win and tie detection over the eight
 * lines of the board, and a score of three counters that survives every reset.
 *
 * The pure part (cells, lines, outcomes, the effect of a move on a board
 * value, the score arithmetic) is stated as functions; the `Game` class holds
 * the board in an array and is updated in place, as the engine is.
 */
module TicTacToe {

  /** What one cell holds: the human's mark, the CPU's mark, or nothing. */
  datatype State = X | O | Empty

  /** Why a human move was refused. */
  datatype PickError = AreaOccupied | MovesMapNotInitialized | OutOfBounds

  /** The outcome of checking the board for one mark. */
  datatype CheckResult = Win | Tie | Continue

  datatype Option<+T> = None | Some(value: T)

  datatype Result<+T, +E> = Ok(value: T) | Err(error: E)

  /** A cell index, 0..8, in row-major order (index = row * 3 + column). */
  type Index = i: int | 0 <= i < 9

  /** The contents of a started board: exactly nine cells. */
  type Cells = s: seq<State> | |s| == 9
    witness [Empty, Empty, Empty, Empty, Empty, Empty, Empty, Empty, Empty]

  /** An unsigned 8-bit value, the type of the score selector. */
  type U8 = x: int | 0 <= x < 256

  const EMPTY_BOARD: Cells := [Empty, Empty, Empty, Empty, Empty, Empty, Empty, Empty, Empty]

  // ---------------------------------------------------------------------------
  // Lines, wins and ties
  // ---------------------------------------------------------------------------

  /** Three cells that win when they all hold the same mark. */
  datatype Line = Line(p: Index, q: Index, r: Index)

  /** The eight winning lines: the three columns, the three rows, the two diagonals. */
  const LINES: seq<Line> := [
    Line(0, 3, 6), Line(1, 4, 7), Line(2, 5, 8),
    Line(0, 1, 2), Line(3, 4, 5), Line(6, 7, 8),
    Line(0, 4, 8), Line(2, 4, 6)
  ]

  /** All three cells of `l` hold `s`. */
  predicate Owns(b: Cells, l: Line, s: State) {
    b[l.p] == s && b[l.q] == s && b[l.r] == s
  }

  /** Some winning line is entirely `s`. */
  predicate Wins(b: Cells, s: State) {
    exists k :: 0 <= k < |LINES| && Owns(b, LINES[k], s)
  }

  /** No cell is empty. */
  predicate Full(b: Cells) {
    Empty !in b
  }

  /**
   * The outcome of checking a board for mark `s`: an absent board never ends
   * the round; otherwise a line of `s` wins, and failing that a full board ties.
   */
  function Outcome(board: Option<Cells>, s: State): CheckResult {
    match board
    case None => Continue
    case Some(b) => if Wins(b, s) then Win else if Full(b) then Tie else Continue
  }

  /** Whether every cell of `s` is marked, walking the cells one by one. */
  function AllMarked(s: seq<State>): (r: bool)
    ensures r <==> Empty !in s
  {
    if s == [] then true
    else s[0] != Empty && AllMarked(s[1..])
  }

  // ---------------------------------------------------------------------------
  // Moves on board values
  // ---------------------------------------------------------------------------

  /** A board after a move attempt, with the attempt's result. */
  datatype Move = Move(board: Option<Cells>, result: Result<(), PickError>)

  /**
   * A human move at `index` on `board`. The range is checked first, then that
   * the board exists, then that the cell is free; any refusal leaves the board
   * as it was, and a success marks exactly the chosen cell with X.
   */
  function PlayerMove(board: Option<Cells>, index: nat): (m: Move)
    ensures m.result == Err(OutOfBounds) <==> index > 8
    ensures m.result == Err(MovesMapNotInitialized) <==> index <= 8 && board.None?
    ensures m.result == Err(AreaOccupied) <==> index <= 8 && board.Some? && board.value[index] != Empty
    ensures m.result.Ok? <==> index <= 8 && board.Some? && board.value[index] == Empty
    ensures m.result.Err? ==> m.board == board
    ensures m.result.Ok? ==> m.board.Some? && m.board.value[index] == X
    ensures m.result.Ok? ==> forall j :: 0 <= j < 9 && j != index ==> m.board.value[j] == board.value[j]
  {
    if index > 8 then Move(board, Err(OutOfBounds))
    else match board
      case None => Move(board, Err(MovesMapNotInitialized))
      case Some(b) =>
        if b[index] == Empty then Move(Some(b[index := X]), Ok(()))
        else Move(board, Err(AreaOccupied))
  }

  /** `after` is `before` with exactly one previously empty cell marked O. */
  ghost predicate CpuMoved(before: Cells, after: Cells) {
    exists k: Index :: before[k] == Empty && after == before[k := O]
  }

  // ---------------------------------------------------------------------------
  // Score
  // ---------------------------------------------------------------------------

  /** Rounds won by the human, rounds won by the CPU, tied rounds. */
  datatype Score = Score(player: nat, cpu: nat, tie: nat)

  function Total(s: Score): nat {
    s.player + s.cpu + s.tie
  }

  /**
   * The score after recording outcome `turn`: 0 is a tie, 1 a human win,
   * 2 a CPU win; any other value records nothing.
   */
  function Bumped(s: Score, turn: U8): (r: Score)
    ensures Total(r) == Total(s) + (if turn <= 2 then 1 else 0)
    ensures r.player >= s.player && r.cpu >= s.cpu && r.tie >= s.tie
    ensures r.tie > s.tie <==> turn == 0
    ensures r.player > s.player <==> turn == 1
    ensures r.cpu > s.cpu <==> turn == 2
  {
    match turn
    case 0 => s.(tie := s.tie + 1)
    case 1 => s.(player := s.player + 1)
    case 2 => s.(cpu := s.cpu + 1)
    case _ => s
  }

  /** The score after recording outcome `turn` `n` times in a row. */
  function BumpedTimes(s: Score, turn: U8, n: nat): Score {
    if n == 0 then s else Bumped(BumpedTimes(s, turn, n - 1), turn)
  }

  // ---------------------------------------------------------------------------
  // The engine
  // ---------------------------------------------------------------------------

  /** How one turn of play ended. */
  datatype Round =
    | Rejected(error: PickError)  // the human's move was refused; nothing changed
    | PlayerWon
    | CpuWon
    | TieAfterPlayer
    | TieAfterCpu
    | Ongoing                     // both sides moved and nobody won

  class Game {
    /** The nine cells; their contents are meaningful only once `started`. */
    var cells: array<State>
    /** Whether the board exists (it does not before the first reset). */
    var started: bool
    var score: Score

    ghost predicate Valid()
      reads this
    {
      cells.Length == 9
    }

    /** The board as a value: absent, or the nine cells. */
    ghost function Board(): Option<Cells>
      reads this, cells
      requires Valid()
    {
      if started then Some(cells[..]) else None
    }

    /** A new engine: no board yet, and every counter at zero. */
    constructor ()
      ensures Valid() && fresh(cells)
      ensures Board() == None && score == Score(0, 0, 0)
    {
      cells := new State[9](_ => Empty);
      started := false;
      score := Score(0, 0, 0);
    }

    /** Records the outcome of a round in exactly one counter (see `Bumped`). */
    method IncreaseScore(turn: U8)
      modifies this`score
      ensures score == Bumped(old(score), turn)
    {
      match turn
      case 0 => score := score.(tie := score.tie + 1);
      case 1 => score := score.(player := score.player + 1);
      case 2 => score := score.(cpu := score.cpu + 1);
      case _ =>
    }

    /** Starts a fresh round: a present board of nine empty cells, score kept. */
    method Reset()
      requires Valid()
      modifies this
      ensures Valid() && fresh(cells)
      ensures Board() == Some(EMPTY_BOARD) && score == old(score)
    {
      cells := new State[9](_ => Empty);
      started := true;
      assert cells[..] == EMPTY_BOARD;
    }

    /** Whether every cell is marked; an absent board is never full. */
    function IsFull(): (r: bool)
      reads this, cells
      requires Valid()
      ensures r <==> started && Empty !in cells[..]
    {
      if started then AllMarked(cells[..]) else false
    }

    /** Marks the CPU's cell: some empty cell becomes O; a full board is left alone. */
    method PickCpu()
      requires Valid() && started
      modifies cells
      ensures Valid() && started
      ensures old(IsFull()) ==> cells[..] == old(cells[..])
      ensures !old(IsFull()) ==> CpuMoved(old(cells[..]), cells[..])
    {
      if IsFull() {
        return;
      }
      var index: Index :| cells[index] == Empty;
      cells[index] := O;
      assert cells[..] == old(cells[..])[index := O];
    }

    /** Tries the human's move at `index`, with the checks and effect of `PlayerMove`. */
    method PickPlayer(index: nat) returns (r: Result<(), PickError>)
      requires Valid()
      modifies cells
      ensures Valid()
      ensures Move(Board(), r) == PlayerMove(old(Board()), index)
    {
      if index <= 8 {
        if started {
          if cells[index] == Empty {
            cells[index] := X;
            r := Ok(());
            assert cells[..] == old(cells[..])[index := X];
          } else {
            r := Err(AreaOccupied);
          }
        } else {
          r := Err(MovesMapNotInitialized);
        }
      } else {
        r := Err(OutOfBounds);
      }
    }

    /**
     * Checks the board for mark `s`: columns first, then rows, each scanned by
     * three cell pointers that step together, then both diagonals, then a tie.
     */
    method Check(s: State) returns (r: CheckResult)
      requires Valid()
      ensures r == Win <==> started && Wins(cells[..], s)
      ensures r == Tie <==> started && !Wins(cells[..], s) && Full(cells[..])
      ensures r == Outcome(Board(), s)
    {
      if started {
        var ptr1, ptr2, ptr3 := 0, 3, 6;
        for i := 0 to 3
          invariant ptr1 == i && ptr2 == i + 3 && ptr3 == i + 6
          invariant forall k :: 0 <= k < i ==> !Owns(cells[..], LINES[k], s)
        {
          if cells[ptr1] == s && cells[ptr2] == s && cells[ptr3] == s {
            assert Owns(cells[..], LINES[i], s);
            return Win;
          }
          ptr1, ptr2, ptr3 := ptr1 + 1, ptr2 + 1, ptr3 + 1;
        }

        ptr1, ptr2, ptr3 := 0, 1, 2;
        for i := 0 to 3
          invariant ptr1 == 3 * i && ptr2 == 3 * i + 1 && ptr3 == 3 * i + 2
          invariant forall k :: 0 <= k < 3 + i ==> !Owns(cells[..], LINES[k], s)
        {
          if cells[ptr1] == s && cells[ptr2] == s && cells[ptr3] == s {
            assert Owns(cells[..], LINES[3 + i], s);
            return Win;
          }
          ptr1, ptr2, ptr3 := ptr1 + 3, ptr2 + 3, ptr3 + 3;
        }

        ptr1, ptr2, ptr3 := 0, 4, 8;
        if cells[ptr1] == s && cells[ptr2] == s && cells[ptr3] == s {
          assert Owns(cells[..], LINES[6], s);
          return Win;
        }
        ptr1, ptr2, ptr3 := 2, 4, 6;
        if cells[ptr1] == s && cells[ptr2] == s && cells[ptr3] == s {
          assert Owns(cells[..], LINES[7], s);
          return Win;
        }

        if IsFull() {
          return Tie;
        }
      }
      return Continue;
    }

    /**
     * One turn of play with the human's already parsed `index`: the human
     * moves; a refused move ends the turn with nothing changed; a human win or
     * tie is scored and the board reset; otherwise the CPU moves and its win or
     * tie is scored and the board reset in the same way.
     */
    method PlayTurn(index: nat) returns (round: Round)
      requires Valid() && started
      modifies this, cells
      ensures Valid() && started
      ensures var m := PlayerMove(old(Board()), index);
        (round.Rejected? <==> m.result.Err?) &&
        (round.Rejected? ==> round.error == m.result.error && Board() == old(Board()) && score == old(score)) &&
        (round == PlayerWon ==> Outcome(m.board, X) == Win) &&
        (round == TieAfterPlayer ==> Outcome(m.board, X) == Tie) &&
        (round in {CpuWon, TieAfterCpu, Ongoing} ==> Outcome(m.board, X) == Continue)
      ensures var m := PlayerMove(old(Board()), index);
        (round == CpuWon ==> exists c :: CpuMoved(m.board.value, c) && Outcome(Some(c), O) == Win) &&
        (round == TieAfterCpu ==> exists c :: CpuMoved(m.board.value, c) && Outcome(Some(c), O) == Tie) &&
        (round == Ongoing ==> CpuMoved(m.board.value, Board().value) && Outcome(Board(), O) == Continue)
      ensures round == PlayerWon ==> score == Bumped(old(score), 1)
      ensures round == CpuWon ==> score == Bumped(old(score), 2)
      ensures round in {TieAfterPlayer, TieAfterCpu} ==> score == Bumped(old(score), 0)
      ensures round == Ongoing ==> score == old(score)
      ensures round in {PlayerWon, CpuWon, TieAfterPlayer, TieAfterCpu} ==> Board() == Some(EMPTY_BOARD)
    {
      var picked := PickPlayer(index);
      if picked.Ok? {
        var humanResult := Check(X);
        if humanResult == Win {
          IncreaseScore(1);
          Reset();
          return PlayerWon;
        }
        if humanResult == Tie {
          IncreaseScore(0);
          Reset();
          return TieAfterPlayer;
        }
      } else if picked.error != MovesMapNotInitialized {
        return Rejected(picked.error);
      }

      // The CPU's turn; the game loop in `start` also falls through here after
      // `MovesMapNotInitialized`, which cannot occur on a started board.
      ghost var afterHuman: Cells := cells[..];
      PickCpu();
      var cpuResult := Check(O);
      if cpuResult == Win {
        ghost var c: Cells := cells[..];
        IncreaseScore(2);
        Reset();
        assert CpuMoved(afterHuman, c) && Outcome(Some(c), O) == Win;
        return CpuWon;
      }
      if cpuResult == Tie {
        ghost var c: Cells := cells[..];
        IncreaseScore(0);
        Reset();
        assert CpuMoved(afterHuman, c) && Outcome(Some(c), O) == Tie;
        return TieAfterCpu;
      }
      return Ongoing;
    }
  }

  // ---------------------------------------------------------------------------
  // Properties
  // ---------------------------------------------------------------------------

  /** A successful human move cannot be repeated: the second try finds the cell occupied. */
  lemma SecondPickOccupied(board: Option<Cells>, index: nat)
    requires PlayerMove(board, index).result.Ok?
    ensures var once := PlayerMove(board, index).board;
      PlayerMove(once, index) == Move(once, Err(AreaOccupied))
  {
  }

  /** On a freshly reset board every in-range move succeeds and marks only its cell. */
  lemma FirstMoveOnEmptyBoard(index: Index)
    ensures var m := PlayerMove(Some(EMPTY_BOARD), index);
      m.result == Ok(()) && m.board.Some? &&
      forall j :: 0 <= j < 9 ==> m.board.value[j] == (if j == index then X else Empty)
  {
  }

  /** A freshly reset board ends nothing, for either mark. */
  lemma EmptyBoardContinues(s: State)
    requires s != Empty
    ensures Outcome(Some(EMPTY_BOARD), s) == Continue
  {
  }

  function Opponent(s: State): State {
    match s
    case X => O
    case O => X
    case Empty => Empty
  }

  /** The board holding `s` on line `k` and nothing else. */
  function LineBoard(k: nat, s: State): (b: Cells)
    requires k < |LINES|
    ensures Owns(b, LINES[k], s)
    ensures forall i :: 0 <= i < 9 ==> b[i] == s || b[i] == Empty
    ensures forall i :: 0 <= i < 9 && i != LINES[k].p && i != LINES[k].q && i != LINES[k].r ==> b[i] == Empty
  {
    var l := LINES[k];
    seq(9, i => if i == l.p || i == l.q || i == l.r then s else Empty)
  }

  /**
   * Marking any one winning line with a mark, and nothing else, is a win for
   * that mark and leaves the round open for the other mark.
   */
  lemma LineWinsForItsMarkOnly(k: nat, s: State)
    requires k < |LINES| && s != Empty
    ensures Outcome(Some(LineBoard(k, s)), s) == Win
    ensures Outcome(Some(LineBoard(k, s)), Opponent(s)) == Continue
  {
    var b := LineBoard(k, s);
    var l := LINES[k];
    // No line can hold the other mark: every cell is `s` or empty.
    forall j | 0 <= j < |LINES|
      ensures !Owns(b, LINES[j], Opponent(s))
    {
      assert b[LINES[j].p] == s || b[LINES[j].p] == Empty;
    }
    // A line covers three cells, so one of the cells 0..3 stays empty.
    var e: Index :=
      if 0 != l.p && 0 != l.q && 0 != l.r then 0
      else if 1 != l.p && 1 != l.q && 1 != l.r then 1
      else if 2 != l.p && 2 != l.q && 2 != l.r then 2
      else 3;
    assert b[e] == Empty;
  }

  /** A full board without a line of either mark is a tie for both marks. */
  lemma FullBoardWithoutLineTies(b: Cells)
    requires Full(b) && !Wins(b, X) && !Wins(b, O)
    ensures Outcome(Some(b), X) == Tie && Outcome(Some(b), O) == Tie
  {
  }

  /** One filled board with no line: X O X / X O O / O X X. */
  lemma DrawnBoardTies()
    ensures Outcome(Some([X, O, X, X, O, O, O, X, X]), X) == Tie
    ensures Outcome(Some([X, O, X, X, O, O, O, X, X]), O) == Tie
  {
  }

  /** With a single empty cell the CPU's move is forced: it takes that cell. */
  lemma ForcedCpuMove(before: Cells, after: Cells, k: Index)
    requires before[k] == Empty
    requires forall j: Index :: j != k ==> before[j] != Empty
    requires CpuMoved(before, after)
    ensures after == before[k := O]
  {
    var j: Index :| before[j] == Empty && after == before[j := O];
    assert j == k;
  }

  /** Recording the same outcome `n` times raises its counter by `n` and no other. */
  lemma {:induction false} RepeatedOutcomes(s: Score, turn: U8, n: nat)
    ensures turn == 0 ==> BumpedTimes(s, turn, n) == s.(tie := s.tie + n)
    ensures turn == 1 ==> BumpedTimes(s, turn, n) == s.(player := s.player + n)
    ensures turn == 2 ==> BumpedTimes(s, turn, n) == s.(cpu := s.cpu + n)
    ensures turn > 2 ==> BumpedTimes(s, turn, n) == s
  {
    if n > 0 {
      RepeatedOutcomes(s, turn, n - 1);
    }
  }
}
