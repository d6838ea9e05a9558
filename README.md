# Connect Four rules engine in Dafny

This project models the game logic of a browser Connect Four game. The board has 6 rows by 7 columns. It is a list of rows, and row 0 is the top row. Each cell is either empty (`null` in the source, `Empty` here) or holds a player's piece. Players 1 and 2 take turns dropping pieces into columns. A piece lands on the lowest empty row of its column. A player wins with four pieces in a row: horizontally, vertically or on either diagonal. The game is a tie when the top row is full.

The model is one module, `Connect4` in `connect4.dfy`. It has two parts.

- Pure definitions:
  - the board shape, written as `WellFormed`;
  - the gravity invariant, written as `Settled`: below an occupied cell, every cell is occupied;
  - the player toggle;
  - the source's four candidate lines and its `_win` test;
  - an independent specification of "four in a row", written as `FourInARow`: some anchor cell and one of the directions (0,1), (1,0), (1,1), (1,-1) give four on-board cells owned by the player.
- The class `Game`. It holds `board` and `currPlayer`, which the source keeps as globals and updates in place. Its methods are:
  - `MakeBoard`: the push loops that build the board;
  - `FindSpotForCol`: scans a column from the bottom up;
  - `CheckForWin`: the nested anchor loops, with an early exit;
  - `HandleClick`: one move, without the page.

`FindSpotForCol` and `CheckForWin` are proved against the specification predicates. `HandleClick` states the whole new state: where the piece lands, that no other cell changes, the turn rule, and when the outcome is `Won`, `Tie`, `Continue` or `ColumnFull`.

Three behaviours of the code are kept as they are:
- The code never checks the column range. For a column outside `[0, WIDTH)` the page lookup in `findSpotForCol` finds no cell, and the call on it throws a `TypeError` (connect4.js:60). `HandleClick` and `FindSpotForCol` require `0 <= x < WIDTH`; that precondition stands for the crash.
- The game is not frozen after a win or a tie. Further moves are still accepted.
- The player is toggled before the tie test. A tie is therefore reported with the turn already passed to the other player. Only a win leaves `currPlayer` unchanged.

## Model

| member | source | states |
|---|---|---|
| `Connect4.Game.constructor` | connect4.js:12-26 | At start-up, player 1 is to move and the board is 6 rows of 7 empty cells. The invariant holds: well-formed, settled, only players 1 and 2 on the board. |
| `Connect4.Game.MakeBoard` | connect4.js:17-26 | Appends HEIGHT rows. Every row, old or new, gets WIDTH empty cells appended. Nothing else changes. |
| `Connect4.Game.FindSpotForCol` | connect4.js:58-65 | Returns `None` exactly when every cell of the column is occupied. Otherwise it returns the largest row whose cell in that column is empty: that cell is empty and every cell below it is occupied. |
| `Connect4.LandingRowUnique` | connect4.js:58-65 | A column has at most one landing row. Asking twice about an unchanged board therefore gives the same answer (the method changes nothing). |
| `Connect4.Game.HandleClick` | connect4.js:86-116 | Full column: the outcome is `ColumnFull`, and the board and player are unchanged. Otherwise the current player's piece is written at the column's landing row and no other cell changes. The outcome is `Won(p)` exactly when the player `p` who moved now has four in a row; any `Won` outcome names that player, and the player is not toggled. Otherwise the player is toggled once, and the outcome is `Tie` exactly when row 0 is full, `Continue` otherwise. The invariant is kept. |
| `Connect4.DropKeepsSettled` | connect4.js:90-98 | Writing a piece at the landing row keeps every column a contiguous block that ends at the bottom row. |
| `Connect4.TopRowFullIffBoardFull` | connect4.js:108-115 | On a settled board, "every cell of row 0 is occupied" holds exactly when the whole board is full. |
| `Connect4.TogglePlayers` | connect4.js:118-124 | The result is always 1 or 2 and differs from the argument, and every argument other than 1 maps to 1. So 1 maps to 2 and 2 maps to 1. |
| `Connect4.TogglePlayersInvolution` | connect4.js:118-124 | On players 1 and 2, toggling twice gives back the same player. |
| `Connect4.Win` | connect4.js:127-132 | True exactly when every listed coordinate is on the board and holds the player's piece. The bounds test comes before any cell is read. |
| `Connect4.CandidateLines` | connect4.js:136-141 | The horizontal, vertical, down-right and down-left lists built at an anchor are won exactly when the specification's line from that anchor, in directions (0,1), (1,0), (1,1) and (1,-1), is owned by the player. |
| `Connect4.WinAnchorInBounds` | connect4.js:134-135 | A winning line's anchor lies on the board. Scanning only on-board anchors therefore misses no line. |
| `Connect4.Game.CheckForWin` | connect4.js:126-146 | Returns true exactly when `currPlayer` has four in a row: some anchor and one of the four directions give four on-board cells holding `currPlayer`. Falling off the end means false. |
| `Connect4.EmptyBoardHasNoWin` | connect4.js:131 | Empty cells never match a player, so no player has four in a row on an empty board. |
| `Connect4.MirrorWinIff` | connect4.js:136-141 | A player has four in a row on a board exactly when they have it on the board's left-right mirror image. The four directions are closed under reflection. |

## Left out

- Page rendering (`makeHtmlBoard`, `placeInTable`): these build and update the HTML table and do not change game state.
- `endGame`: a delayed `alert` on a timer. `HandleClick` returns the outcome (`Won(player)`, `Tie`) instead.
- Event wiring and reading the clicked column from the element id: the column is an integer parameter.
- The start-up calls at the end of the file: the constructor stands for them.
- `findSpotForCol` reads the page to test whether a cell is empty. The board list and the page are always written together, so the model reads `board[y][x]` instead.
- Column range: a column outside `[0, WIDTH)` makes the source throw a `TypeError` at connect4.js:60. The model excludes it by a precondition and does not model the exception.
