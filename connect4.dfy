/** Connect Four: the board model and the move, turn, win and tie rules.
 *
 *  Two players alternately drop pieces into the columns of a HEIGHT x WIDTH
 *  grid; a piece falls to the lowest empty row of its column.  A player wins
 *  with four of their pieces in a horizontal, vertical or diagonal line; the
 *  game is a tie when the top row is full.
 */
module Connect4 {

  const WIDTH := 7
  const HEIGHT := 6

  /** A board cell: `Empty` stands for the source's `null`, `Piece(p)` for a
      cell that holds player `p`'s piece. */
  datatype Cell = Empty | Piece(player: int)

  /** The board is a list of rows; row 0 is the top row. */
  type Board = seq<seq<Cell>>

  datatype Option<T> = None | Some(value: T)

  /** What a click on a column top leads to.  `ColumnFull` is the ignored
      click; `Won` and `Tie` are the two messages the game announces. */
  datatype Outcome = ColumnFull | Continue | Won(player: int) | Tie

  /* ---------------------------------------------------------------------- */
  /* Board shape, coordinates and the gravity invariant                      */
  /* ---------------------------------------------------------------------- */

  predicate WellFormed(b: Board) {
    |b| == HEIGHT && forall y :: 0 <= y < HEIGHT ==> |b[y]| == WIDTH
  }

  predicate InBounds(y: int, x: int) {
    0 <= y < HEIGHT && 0 <= x < WIDTH
  }

  predicate IsPlayer(p: int) {
    p == 1 || p == 2
  }

  /** Every piece on the board belongs to player 1 or player 2. */
  ghost predicate PiecesArePlayers(b: Board)
    requires WellFormed(b)
  {
    forall y, x :: InBounds(y, x) && b[y][x] != Empty ==> IsPlayer(b[y][x].player)
  }

  /** Gravity: in every column the occupied cells form one block that ends
      at the bottom row, i.e. below an occupied cell every cell is occupied. */
  ghost predicate Settled(b: Board)
    requires WellFormed(b)
  {
    forall y1, y2, x :: 0 <= y1 <= y2 < HEIGHT && 0 <= x < WIDTH && b[y1][x] != Empty ==> b[y2][x] != Empty
  }

  ghost predicate IsEmptyBoard(b: Board) {
    WellFormed(b) && forall y, x :: InBounds(y, x) ==> b[y][x] == Empty
  }

  ghost predicate BoardFull(b: Board)
    requires WellFormed(b)
  {
    forall y, x :: InBounds(y, x) ==> b[y][x] != Empty
  }

  /** The tie test of the source: every cell of row 0 is occupied. */
  predicate TopRowFull(b: Board)
    requires WellFormed(b)
  {
    forall x | 0 <= x < WIDTH :: b[0][x] != Empty
  }

  ghost predicate ColumnIsFull(b: Board, x: int)
    requires WellFormed(b) && 0 <= x < WIDTH
  {
    forall y :: 0 <= y < HEIGHT ==> b[y][x] != Empty
  }

  /** `y` is where a piece dropped into column `x` lands: the largest row of
      that column whose cell is empty. */
  ghost predicate IsLandingRow(b: Board, x: int, y: int)
    requires WellFormed(b) && 0 <= x < WIDTH
  {
    0 <= y < HEIGHT && b[y][x] == Empty &&
    forall y' :: y < y' < HEIGHT ==> b[y'][x] != Empty
  }

  /** `after` is `before` with cell (y, x) set to player `p`'s piece and
      every other cell unchanged. */
  ghost predicate Placed(before: Board, after: Board, y: int, x: int, p: int)
    requires WellFormed(before) && InBounds(y, x)
  {
    WellFormed(after) && after[y][x] == Piece(p) &&
    forall y', x' :: InBounds(y', x') && (y' != y || x' != x) ==> after[y'][x'] == before[y'][x']
  }

  /* ---------------------------------------------------------------------- */
  /* Players                                                                 */
  /* ---------------------------------------------------------------------- */

  /** Player 1 hands over to player 2; any other value hands over to 1. */
  function TogglePlayers(player: int): (r: int)
    ensures IsPlayer(r)
    ensures r != player
    ensures player != 1 ==> r == 1
  {
    if player == 1 then player + 1 else 1
  }

  lemma TogglePlayersInvolution(p: int)
    requires IsPlayer(p)
    ensures TogglePlayers(TogglePlayers(p)) == p
  {
  }

  /* ---------------------------------------------------------------------- */
  /* Four in a row: the specification                                        */
  /* ---------------------------------------------------------------------- */

  /** Cell (y, x) exists and holds player `p`'s piece. */
  predicate Owns(b: Board, p: int, y: int, x: int)
    requires WellFormed(b)
  {
    InBounds(y, x) && b[y][x] == Piece(p)
  }

  /** The coordinate `k` steps from `a` in direction `d`. */
  function Step(a: int, d: int, k: int): int {
    a + k * d
  }

  /** Player `p` owns the four cells starting at (y, x) in direction (dy, dx). */
  ghost predicate LineFrom(b: Board, p: int, y: int, x: int, dy: int, dx: int)
    requires WellFormed(b)
  {
    forall k :: 0 <= k < 4 ==> Owns(b, p, Step(y, dy, k), Step(x, dx, k))
  }

  /** A line anchored at (y, x) in one of the four directions: right, down,
      down-right and down-left. */
  ghost predicate WinAt(b: Board, p: int, y: int, x: int)
    requires WellFormed(b)
  {
    LineFrom(b, p, y, x, 0, 1) || LineFrom(b, p, y, x, 1, 0) ||
    LineFrom(b, p, y, x, 1, 1) || LineFrom(b, p, y, x, 1, -1)
  }

  ghost predicate FourInARow(b: Board, p: int)
    requires WellFormed(b)
  {
    exists y, x :: WinAt(b, p, y, x)
  }

  /* ---------------------------------------------------------------------- */
  /* Four in a row: the source's candidate lines and `_win`                  */
  /* ---------------------------------------------------------------------- */

  function Horiz(y: int, x: int): seq<(int, int)> {
    [(y, x), (y, x + 1), (y, x + 2), (y, x + 3)]
  }

  function Vert(y: int, x: int): seq<(int, int)> {
    [(y, x), (y + 1, x), (y + 2, x), (y + 3, x)]
  }

  function DiagDR(y: int, x: int): seq<(int, int)> {
    [(y, x), (y + 1, x + 1), (y + 2, x + 2), (y + 3, x + 3)]
  }

  function DiagDL(y: int, x: int): seq<(int, int)> {
    [(y, x), (y + 1, x - 1), (y + 2, x - 2), (y + 3, x - 3)]
  }

  /** `_win`: every listed cell is on the board and holds `player`'s piece.
      The bounds test comes first, so no cell outside the board is read. */
  function Win(b: Board, cells: seq<(int, int)>, player: int): (r: bool)
    requires WellFormed(b)
    ensures r <==> forall i :: 0 <= i < |cells| ==> Owns(b, player, cells[i].0, cells[i].1)
  {
    if cells == [] then true
    else
      var (y, x) := cells[0];
      (InBounds(y, x) && b[y][x] == Piece(player)) && Win(b, cells[1..], player)
  }

  /** The four lists that the source builds at an anchor are exactly the four
      lines of the specification. */
  lemma {:induction false} CandidateLines(b: Board, p: int, y: int, x: int)
    requires WellFormed(b)
    ensures Win(b, Horiz(y, x), p) <==> LineFrom(b, p, y, x, 0, 1)
    ensures Win(b, Vert(y, x), p) <==> LineFrom(b, p, y, x, 1, 0)
    ensures Win(b, DiagDR(y, x), p) <==> LineFrom(b, p, y, x, 1, 1)
    ensures Win(b, DiagDL(y, x), p) <==> LineFrom(b, p, y, x, 1, -1)
  {
    assert forall k :: 0 <= k < 4 ==> Horiz(y, x)[k] == (Step(y, 0, k), Step(x, 1, k));
    assert forall k :: 0 <= k < 4 ==> Vert(y, x)[k] == (Step(y, 1, k), Step(x, 0, k));
    assert forall k :: 0 <= k < 4 ==> DiagDR(y, x)[k] == (Step(y, 1, k), Step(x, 1, k));
    assert forall k :: 0 <= k < 4 ==> DiagDL(y, x)[k] == (Step(y, 1, k), Step(x, -1, k));
  }

  /** A winning line's anchor is its first cell, so it lies on the board. */
  lemma {:induction false} WinAnchorInBounds(b: Board, p: int, y: int, x: int)
    requires WellFormed(b) && WinAt(b, p, y, x)
    ensures InBounds(y, x)
  {
    assert Step(y, 0, 0) == y && Step(y, 1, 0) == y;
    assert Step(x, 0, 0) == x && Step(x, 1, 0) == x && Step(x, -1, 0) == x;
  }

  /** Empty cells never match a player, so an empty board has no line. */
  lemma {:induction false} EmptyBoardHasNoWin(b: Board, p: int)
    requires IsEmptyBoard(b)
    ensures !FourInARow(b, p)
  {
    forall y, x ensures !WinAt(b, p, y, x) {
      assert Step(y, 0, 0) == y && Step(y, 1, 0) == y;
      assert Step(x, 0, 0) == x && Step(x, 1, 0) == x && Step(x, -1, 0) == x;
    }
  }

  /* ---------------------------------------------------------------------- */
  /* Mirror symmetry                                                         */
  /* ---------------------------------------------------------------------- */

  /** The board reflected left to right. */
  function Mirror(b: Board): (r: Board)
    requires WellFormed(b)
    ensures WellFormed(r)
    ensures forall y, x :: InBounds(y, x) ==> r[y][x] == b[y][WIDTH - 1 - x]
  {
    seq(HEIGHT, y requires 0 <= y < HEIGHT => seq(WIDTH, x requires 0 <= x < WIDTH => b[y][WIDTH - 1 - x]))
  }

  /** A line of `b` seen in the mirror: cell `k` of the new line is the
      reflection of cell `k` (or `3 - k` when `rev`) of the old one. */
  lemma {:induction false} MirrorLine(b: Board, p: int, y: int, x: int, dy: int, dx: int,
                                      y0: int, x0: int, dy0: int, dx0: int, rev: bool)
    requires WellFormed(b) && LineFrom(b, p, y, x, dy, dx)
    requires forall k :: 0 <= k < 4 ==>
      var j := if rev then 3 - k else k;
      Step(y0, dy0, k) == Step(y, dy, j) && Step(x0, dx0, k) == WIDTH - 1 - Step(x, dx, j)
    ensures LineFrom(Mirror(b), p, y0, x0, dy0, dx0)
  {
  }

  lemma {:induction false} MirrorWinAt(b: Board, p: int, y: int, x: int) returns (x0: int)
    requires WellFormed(b) && WinAt(b, p, y, x)
    ensures WinAt(Mirror(b), p, y, x0)
  {
    if LineFrom(b, p, y, x, 0, 1) {
      x0 := WIDTH - 4 - x;
      MirrorLine(b, p, y, x, 0, 1, y, x0, 0, 1, true);
    } else if LineFrom(b, p, y, x, 1, 0) {
      x0 := WIDTH - 1 - x;
      MirrorLine(b, p, y, x, 1, 0, y, x0, 1, 0, false);
    } else if LineFrom(b, p, y, x, 1, 1) {
      x0 := WIDTH - 1 - x;
      MirrorLine(b, p, y, x, 1, 1, y, x0, 1, -1, false);
    } else {
      x0 := WIDTH - 1 - x;
      MirrorLine(b, p, y, x, 1, -1, y, x0, 1, 1, false);
    }
  }

  lemma {:induction false} MirrorKeepsWin(b: Board, p: int)
    requires WellFormed(b) && FourInARow(b, p)
    ensures FourInARow(Mirror(b), p)
  {
    var y, x :| WinAt(b, p, y, x);
    var x0 := MirrorWinAt(b, p, y, x);
  }

  /** The four directions are closed under left-right reflection, so the win
      test does not depend on which side of the board a line is read from. */
  lemma {:induction false} MirrorWinIff(b: Board, p: int)
    requires WellFormed(b)
    ensures FourInARow(Mirror(b), p) <==> FourInARow(b, p)
  {
    var m := Mirror(b);
    assert Mirror(m) == b by {
      forall y | 0 <= y < HEIGHT ensures Mirror(m)[y] == b[y] {
        assert forall x :: 0 <= x < WIDTH ==> Mirror(m)[y][x] == b[y][x];
      }
    }
    if FourInARow(b, p) { MirrorKeepsWin(b, p); }
    if FourInARow(m, p) { MirrorKeepsWin(m, p); }
  }

  /* ---------------------------------------------------------------------- */
  /* Drops and ties under gravity                                            */
  /* ---------------------------------------------------------------------- */

  /** Writing a piece at the landing row keeps the gravity invariant. */
  lemma {:induction false} DropKeepsSettled(b: Board, x: int, y: int, p: int)
    requires WellFormed(b) && Settled(b) && 0 <= x < WIDTH && IsLandingRow(b, x, y)
    ensures WellFormed(b[y := b[y][x := Piece(p)]])
    ensures Settled(b[y := b[y][x := Piece(p)]])
  {
  }

  /** Under gravity a column is full exactly when its top cell is occupied,
      so the source's top-row tie test is a full-board test. */
  lemma {:induction false} TopRowFullIffBoardFull(b: Board)
    requires WellFormed(b) && Settled(b)
    ensures TopRowFull(b) <==> BoardFull(b)
  {
    if TopRowFull(b) {
      forall y, x | InBounds(y, x) ensures b[y][x] != Empty {
        assert b[0][x] != Empty;
      }
    }
  }

  /** A column has at most one landing row, so asking twice about an
      unchanged board gives one answer. */
  lemma {:induction false} LandingRowUnique(b: Board, x: int, y1: int, y2: int)
    requires WellFormed(b) && 0 <= x < WIDTH
    requires IsLandingRow(b, x, y1) && IsLandingRow(b, x, y2)
    ensures y1 == y2
  {
  }

  /* ---------------------------------------------------------------------- */
  /* The game: board and current player, updated in place                    */
  /* ---------------------------------------------------------------------- */

  class Game {
    var board: Board
    var currPlayer: int

    ghost predicate Valid()
      reads this
    {
      WellFormed(board) && Settled(board) && PiecesArePlayers(board) && IsPlayer(currPlayer)
    }

    /** Program start-up: player 1 to move, then `makeBoard` on the empty list. */
    constructor ()
      ensures Valid()
      ensures IsEmptyBoard(board) && currPlayer == 1
    {
      board := [];
      currPlayer := 1;
      new;
      MakeBoard();
    }

    /** `makeBoard`: push HEIGHT new rows, then push WIDTH empty cells onto
        every row of the board. */
    method MakeBoard()
      modifies this
      ensures currPlayer == old(currPlayer)
      ensures |board| == |old(board)| + HEIGHT
      ensures forall i :: 0 <= i < |old(board)| ==> board[i] == old(board)[i] + seq(WIDTH, _ => Empty)
      ensures forall i :: |old(board)| <= i < |board| ==> board[i] == seq(WIDTH, _ => Empty)
    {
      var i := 0;
      while i < HEIGHT
        invariant 0 <= i <= HEIGHT
        invariant currPlayer == old(currPlayer)
        invariant board == old(board) + seq(i, _ => [])
      {
        board := board + [[]];
        i := i + 1;
      }
      i := 0;
      while i < |board|
        invariant 0 <= i <= |board| == |old(board)| + HEIGHT
        invariant currPlayer == old(currPlayer)
        invariant forall r :: 0 <= r < i && r < |old(board)| ==> board[r] == old(board)[r] + seq(WIDTH, _ => Empty)
        invariant forall r :: |old(board)| <= r < i ==> board[r] == seq(WIDTH, _ => Empty)
        invariant forall r :: i <= r < |old(board)| ==> board[r] == old(board)[r]
        invariant forall r :: |old(board)| <= r < |board| && i <= r ==> board[r] == []
      {
        ghost var outer := board;
        var j := 0;
        while j < WIDTH
          invariant 0 <= j <= WIDTH
          invariant currPlayer == old(currPlayer)
          invariant |board| == |outer|
          invariant board[i] == outer[i] + seq(j, _ => Empty)
          invariant forall r :: 0 <= r < |board| && r != i ==> board[r] == outer[r]
        {
          board := board[i := board[i] + [Empty]];
          j := j + 1;
        }
        i := i + 1;
      }
    }

    /** `findSpotForCol`: scan column `x` from the bottom row upwards and
        return the first empty row, or `None` when the column is full. */
    method FindSpotForCol(x: int) returns (spot: Option<int>)
      requires WellFormed(board) && 0 <= x < WIDTH
      ensures spot.None? <==> ColumnIsFull(board, x)
      ensures spot.Some? ==> IsLandingRow(board, x, spot.value)
    {
      var y := 5;  // the source's start row, HEIGHT - 1
      while y >= 0
        invariant -1 <= y < HEIGHT
        invariant forall y' :: y < y' < HEIGHT ==> board[y'][x] != Empty
      {
        if board[y][x] == Empty {
          return Some(y);
        }
        y := y - 1;
      }
      return None;
    }

    /** `checkForWin`: try the four lines anchored at every cell, stopping at
        the first one that `currPlayer` owns completely. */
    method CheckForWin() returns (won: bool)
      requires WellFormed(board)
      ensures won <==> FourInARow(board, currPlayer)
    {
      var y := 0;
      while y < HEIGHT
        invariant 0 <= y <= HEIGHT
        invariant forall y', x' :: 0 <= y' < y && 0 <= x' < WIDTH ==> !WinAt(board, currPlayer, y', x')
      {
        var x := 0;
        while x < WIDTH
          invariant 0 <= x <= WIDTH
          invariant forall y', x' :: 0 <= y' < y && 0 <= x' < WIDTH ==> !WinAt(board, currPlayer, y', x')
          invariant forall x' :: 0 <= x' < x ==> !WinAt(board, currPlayer, y, x')
        {
          CandidateLines(board, currPlayer, y, x);
          if Win(board, Horiz(y, x), currPlayer) || Win(board, Vert(y, x), currPlayer) ||
             Win(board, DiagDR(y, x), currPlayer) || Win(board, DiagDL(y, x), currPlayer)
          {
            assert WinAt(board, currPlayer, y, x);
            return true;
          }
          x := x + 1;
        }
        y := y + 1;
      }
      if FourInARow(board, currPlayer) {
        var y', x' :| WinAt(board, currPlayer, y', x');
        WinAnchorInBounds(board, currPlayer, y', x');
        assert false;
      }
      return false;
    }

    /** `handleClick` without the page: drop `currPlayer`'s piece into column
        `x`.  A full column is ignored.  A win leaves `currPlayer` as it is;
        otherwise the turn passes before the tie test, so a tie is reported
        with the turn already handed over. */
    method HandleClick(x: int) returns (outcome: Outcome)
      requires Valid() && 0 <= x < WIDTH
      modifies this
      ensures Valid()
      ensures outcome == ColumnFull <==> old(ColumnIsFull(board, x))
      ensures outcome == ColumnFull ==> board == old(board) && currPlayer == old(currPlayer)
      ensures outcome != ColumnFull ==>
        exists y :: IsLandingRow(old(board), x, y) && Placed(old(board), board, y, x, old(currPlayer))
      ensures outcome != ColumnFull ==> (outcome == Won(old(currPlayer)) <==> FourInARow(board, old(currPlayer)))
      ensures outcome.Won? ==> outcome.player == old(currPlayer) && currPlayer == old(currPlayer)
      ensures outcome != ColumnFull && !outcome.Won? ==>
        currPlayer == TogglePlayers(old(currPlayer)) && (outcome == Tie <==> TopRowFull(board))
    {
      var spot := FindSpotForCol(x);
      if spot.None? {
        return ColumnFull;
      }
      var y := spot.value;
      DropKeepsSettled(board, x, y, currPlayer);
      ghost var before := board;
      board := board[y := board[y][x := Piece(currPlayer)]];
      assert Placed(before, board, y, x, currPlayer);
      var won := CheckForWin();
      if won {
        return Won(currPlayer);
      }
      currPlayer := TogglePlayers(currPlayer);
      var isTie := TopRowFull(board);
      if isTie {
        return Tie;
      }
      return Continue;
    }
  }
}
