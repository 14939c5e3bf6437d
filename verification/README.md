# Reversi bitboard engine, modelled in Dafny

This project models the rules engine of a Reversi (Othello) game, the class `Board` of
`src/src/lib/models/Board.ts`. It proves the engine's promises about that model.

The engine keeps the discs of each colour as a 64-bit board: bit `i` is cell `i`, which is
row `i / 8` and column `i % 8`. The model has four parts.

- **Bit boards** (`Bitboard`, `Directions`, `Geometry`).
  - It converts between cell indices and one-cell boards (`moveToBoard`, `boardToMoves`).
  - It models the occupied and vacant boards.
  - It models the eight one-cell shifts of `transfer`.
  - `Geometry` is an independent reference on a (row, column) grid. It proves that a shift
    moves a disc to its grid neighbour, or off the board, and never wraps round an edge.
- **Legal-move generator** (`Legal`, `Rules`). `legalBoardOf` is eight bit-parallel flood
  passes of six lines each. It is proved equal, cell by cell, to the rule of the game:
  - a cell is legal exactly when it is vacant;
  - and it flanks a run of the opponent's discs with one of the player's discs, in some
    direction.
- **Move** (`Flipping`, `Game`, `GameLaws`, `GameInvariant`).
  - `handleMove` walks the eight directions with `transfer` and collects the discs it
    flips. It then pushes the new boards and the move, and passes automatically.
  - `makeMove` refuses illegal moves. Before handling a move, it drops the undone boards
    and turns.
  - Legal cells flip at least one disc, and only discs of the opponent.
  - A move flips exactly the discs of the runs the placed disc closes, read cell by cell on
    the grid of `Geometry`.
  - A move keeps the boards disjoint and adds exactly one disc to the board.
  - After a move, the side to move has a legal move or the game is over.
  - `makeMove` keeps the state invariant `Valid`. `Valid` requires:
    - one board pair per move, plus the starting pair;
    - disjoint boards;
    - moves on the board;
    - a log that neither starts with a pass nor holds three passes in a row.
- **History** (`History`, `UndoLaws`, `ReplayLaws`, `CloneLaws`).
  - The log `_allMoves` holds moves and `null` passes. `undo()` only counts, and the views
    `allMoves()`, `moves()` and the current boards take back the undone turns.
  - An undo right after a move restores the state before it. Making the undone move again
    redoes it.
  - The constructor replays moves. A board it builds clones to itself, and so does every
    board reached from it by `makeMove` and `undo()`.
  - The current turn of such a board is the replay of its moves made.

The state is an immutable datatype `Game.Board`. The engine's mutating methods are
functions from state to state, and `throw` is the `Failure` case of a `Result`. The loops of
`handleMove`, `allMoves()`, `boardToMoves` and `cells()` are methods or recursive functions,
and each is proved equal to a recursive definition. For the two bit-parallel algorithms,
`legalBoardOf` and the walks of `handleMove`, that definition is in turn proved to agree
cell by cell with the row-and-column reference of `Geometry` (`Rules.LegalCellAgrees`,
`Rules.FlipsCells`).

## Model

| member | source | states |
|---|---|---|
| Bitboard.MoveToBoardCell | src/src/lib/models/Board.ts:333-335 | `moveToBoard(m)` is a one-cell board holding cell `m` when 0 <= m < 64, and the empty board exactly when `m` is off the board (negative shifts give 0, the 64-bit mask clears the rest) |
| Bitboard.BoardToMoves | src/src/lib/models/Board.ts:323-331 | `boardToMoves(b)` lists exactly the cells of `b`, in strictly ascending order |
| Bitboard.MovesFrom | src/src/lib/models/Board.ts:325-329 | the loop of `boardToMoves` from index `i` lists exactly the cells of the board at or after `i`, ascending |
| Bitboard.ShiftTest | src/src/lib/models/Board.ts:326 | the engine's bit test `(board >> i) & 1 == 1` holds exactly when the board meets the one-cell board of `i` |
| Geometry.HasShift | src/src/lib/models/Board.ts:323-331 | for an integer index `i` of the board, the test `Has(b, i)` of the model's loops masks `b` with `1 << i` at the six-bit index, the side of `Bitboard.ShiftTest` that equals the engine's `(b >> BigInt(i)) & 1n == 1n` |
| Bitboard.PopCountUnion | src/src/lib/models/Board.ts:253-254 | the disc count of two disjoint boards together is the sum of their counts |
| Directions.StepKeepsSingleLemma | src/src/lib/models/Board.ts:265-286 | `transfer` moves a one-cell board to at most one cell |
| Directions.VanishesLemma | src/src/lib/models/Board.ts:244-248 | seven further steps of `transfer` from a neighbour of the placed disc leave the empty board, so the inner walk of `handleMove` ends within seven steps |
| Directions.ShortChainsLemma | src/src/lib/models/Board.ts:141-143 | no line of the board holds seven cells of a watch mask in a row |
| Geometry.StepIsNeighbour | src/src/lib/models/Board.ts:265-286 | `transfer` of a cell's board towards a direction is the board of the cell's grid neighbour, or empty at the edge: no shift wraps round the board |
| Geometry.CellBitOf | src/src/lib/models/Board.ts:333-335 | `moveToBoard(i)` is the grid cell `i` |
| Geometry.ReachIsRay | src/src/lib/models/Board.ts:242-252 | the bitboard walk over a run of discs equals the cell-by-cell ray walk on the grid |
| Legal.FloodWithin | src/src/lib/models/Board.ts:148-153 | a flood pass stays inside its watch board |
| Legal.FloodReaches | src/src/lib/models/Board.ts:148-153 | a cell the first `n` lines of a pass flood starts a run of watched opponent discs closed by a player disc within `n` cells |
| Legal.ReachFlooded | src/src/lib/models/Board.ts:148-153 | conversely, a cell that starts such a run within `n` cells is flooded by the first `n` lines |
| Legal.PassFindsOut | src/src/lib/models/Board.ts:148-154 | a cell a pass lands on is vacant and starts a watched run of at most six discs closed by a player disc |
| Legal.PassFindsIn | src/src/lib/models/Board.ts:148-154 | conversely, a vacant cell that starts such a run is found by the pass |
| Rules.ReachWatched | src/src/lib/models/Board.ts:141-143 | a run next to a cell passes only cells of the watch mask, so masking the opponent's board loses no run |
| Rules.ReachSix | src/src/lib/models/Board.ts:148-153 | six flood lines find every run of watched discs, since no line holds seven in a row |
| Rules.PassAgrees | src/src/lib/models/Board.ts:141-154 | one pass finds exactly the vacant cells whose neighbour starts a run of opponent discs closed by a player disc |
| Rules.PassOfAgrees | src/src/lib/models/Board.ts:141-212 | the same for each of the eight passes of `legalBoardOf`, with its own watch mask |
| Rules.MeetsLegal | src/src/lib/models/Board.ts:146-212 | a cell is in `legalBoardOf` exactly when one of the eight passes finds it |
| Rules.PassVacant | src/src/lib/models/Board.ts:144-154 | every pass lands on vacant cells only |
| Rules.LegalVacant | src/src/lib/models/Board.ts:144-212 | `legalBoardOf(p, o)` lies inside the vacant board `BLANK_BOARD & ~(p \| o)` |
| Rules.PassIsFlank | src/src/lib/models/Board.ts:141-154 | the pass towards a direction finds cell `c` exactly when `c` is empty and flanks a run in that direction by the grid rule |
| Rules.LegalCellAgrees | src/src/lib/models/Board.ts:136-213 | `legalBoardOf` holds cell `c` exactly when `c` is legal by the grid rule of Reversi: empty, and flanking a run of opponent discs in some direction |
| Rules.LegalIsReference | src/src/lib/models/Board.ts:136-213 | the same for any integer index: nothing off the board is legal |
| Rules.FlipsAny | src/src/lib/models/Board.ts:242-252 | a move flips something exactly when one of its eight directions does |
| Rules.LegalFlips | src/src/lib/models/Board.ts:136-213 | on disjoint boards, a cell is in `legalBoardOf` exactly when it is vacant and the `transfer` walk of `handleMove` flips at least one disc from it: the flood and the walk agree |
| Rules.WalkCells | src/src/lib/models/Board.ts:243-247 | the inner `while` loop of `handleMove`, started on a cell, adds to `rev_` exactly the cells of the grid walk over the opponent's discs from that cell |
| Rules.DirFlipsCells | src/src/lib/models/Board.ts:241-251 | on disjoint boards, direction `k` adds something to `rev` exactly when the placed cell flanks a run in that direction by the grid rule, and then it adds exactly the cells of that run |
| Rules.FlipsCells | src/src/lib/models/Board.ts:240-252 | on disjoint boards, `rev` holds exactly the cells of the runs the placed cell flanks, over the eight directions |
| Rules.TwoDiscRun | src/src/lib/models/Board.ts:240-252 | a move on cell 16 beside white discs on 17 and 18 and black's disc on 19 flips both white discs, and no other cell |
| Flipping.WalkFrom | src/src/lib/models/Board.ts:243-248 | the inner `while` loop of `handleMove` returns the run and the stopping mask of the walk |
| Flipping.HandleFlips | src/src/lib/models/Board.ts:241-252 | the loop over the eight directions builds `rev`, the union of the runs closed by a player disc |
| Flipping.WalkReach | src/src/lib/models/Board.ts:245-249 | on disjoint boards the walk passes opponent discs and stops on a player disc exactly when its start begins a flanked run |
| Flipping.WalkWithin | src/src/lib/models/Board.ts:245-246 | a walk adds discs of the opponent only to its run |
| Flipping.DirFlipsStops | src/src/lib/models/Board.ts:244-251 | a direction flips something exactly when its walk starts on an opponent disc and stops on a player disc |
| Flipping.DirFlipsReach | src/src/lib/models/Board.ts:243-251 | a direction flips something exactly when the placed disc's neighbour starts a flanked run |
| Flipping.FlipsWithin | src/src/lib/models/Board.ts:241-252 | `rev` lies inside the opponent's board |
| Flipping.AfterBoards | src/src/lib/models/Board.ts:253-254 | with `rev` inside the opponent's board and `put` vacant, the XOR updates are "add `put` and `rev`" and "remove `rev`" |
| Flipping.AfterDisjoint | src/src/lib/models/Board.ts:253-254 | the pushed boards are disjoint |
| Flipping.AfterOccupied | src/src/lib/models/Board.ts:253-254 | the occupied board grows by exactly the placed cell: no other cell changes between empty and occupied |
| Flipping.AfterCountPlayer | src/src/lib/models/Board.ts:253 | the mover gains the placed disc and every flipped disc |
| Flipping.AfterCountOpponent | src/src/lib/models/Board.ts:254 | the opponent loses exactly the flipped discs |
| History.PlayedMembers | src/src/lib/models/Board.ts:57 | a number is among the filtered moves exactly when the log holds it as a move |
| History.PlayedAppend | src/src/lib/models/Board.ts:57 | filtering distributes over concatenation |
| History.DropTurnPlayed | src/src/lib/models/Board.ts:47-50 | one round of the undo loop removes exactly the last move, and the passes after it |
| History.RetractLoop | src/src/lib/models/Board.ts:40-53 | the undo loop of `allMoves()` computes the retraction of `undoCount` turns |
| History.RetractPlayed | src/src/lib/models/Board.ts:46-51 | the moves left after taking back `u` turns are the moves but the last `u`, and none when `u` exceeds their number |
| History.RetractPrefix | src/src/lib/models/Board.ts:46-51 | taking back turns leaves a prefix of the log |
| History.RetractAdd | src/src/lib/models/Board.ts:46-51 | taking back `u` turns and then `v` more is taking back `u + v` |
| History.LoggedTurnPlayed | src/src/lib/models/Board.ts:255-262 | a turn, which is a move and up to two passes, adds exactly its move, and one round of the undo loop takes it back whole |
| History.WellFormedTurn | src/src/lib/models/Board.ts:255-262 | appending a turn keeps the log free of a leading pass and of three passes in a row |
| History.WellFormedPrefix | src/src/lib/models/Board.ts:229-231 | a prefix of such a log is such a log |
| History.Slice | src/src/lib/models/Board.ts:60 | JavaScript's `slice(0, end)` gives a prefix: `end` elements when `end` is not negative, and all but the last `-end` when it is, never more than all or fewer than none |
| Game.MovesMadeLog | src/src/lib/models/Board.ts:46-65 | `moves()` with its end clamped at 0 equals the moves of `allMoves()`, and `movesMade()` is the number of moves minus `undoCount`, or 0 |
| Game.MovesOfTurn | src/src/lib/models/Board.ts:56-65 | with nothing undone, the moves after a turn are those before it and the turn's move |
| Game.Place | src/src/lib/models/Board.ts:238-255 | the first lines of `handleMove` push one board pair and the move, and keep the earlier boards |
| Game.PassTurn | src/src/lib/models/Board.ts:258-260 | a pass keeps the boards and the moves made |
| Game.TruncateKeeps | src/src/lib/models/Board.ts:229-232 | the first lines of `makeMove` keep the current boards, the log, the side to move and the legal cells, and leave one board pair per move made |
| Game.ValidSized | src/src/lib/models/Board.ts:67-77 | a valid state has its current boards inside the arrays |
| Game.LegalCellsVacant | src/src/lib/models/Board.ts:215-217 | no disc of either colour is on a cell where the side to move may play |
| Game.CellCodes | src/src/lib/models/Board.ts:297-311 | the loop of `cells()` gives 3 exactly on legal cells, 1 exactly on black discs, 2 exactly on white discs not black, 0 elsewhere |
| Game.Cells | src/src/lib/models/Board.ts:292-313 | `cells()` has 64 codes: 3 only on empty legal cells, 1 on every black disc, 2 on white discs, 0 on the empty cells where no move is legal |
| GameLaws.CanMakeMoveIsLegal | src/src/lib/models/Board.ts:219-222 | `canMakeMove(m)` holds exactly when `m` is in `legalMoves()`, and only for cells on the board |
| GameLaws.MakeMoveRejects | src/src/lib/models/Board.ts:224-227 | `makeMove(m)` fails exactly when `m` is not in `legalMoves()`, and then changes nothing |
| GameLaws.PassWhenShape | src/src/lib/models/Board.ts:257-262 | the pass logic adds no, one or two passes and no boards |
| GameLaws.SettleLog | src/src/lib/models/Board.ts:257-262 | after the move, the log grows by 0, 1 or 2 passes and the boards stay |
| GameLaws.SettleKeeps | src/src/lib/models/Board.ts:257 | no pass is added exactly when the side to move has a legal move |
| GameLaws.SettleProgress | src/src/lib/models/Board.ts:257-262 | afterwards the side to move has a legal move, or the last two turns were passes and `isOver()` holds |
| GameLaws.HandleMoveLog | src/src/lib/models/Board.ts:255-262 | `handleMove` appends one turn: the move and up to two passes |
| GameLaws.HandleMoveBoards | src/src/lib/models/Board.ts:253-262 | the boards of `handleMove` are those it pushes before passing |
| GameLaws.HandleMoveProgress | src/src/lib/models/Board.ts:237-263 | after `handleMove` the side to move can move, or the game is over |
| GameLaws.HandleMoveCurrent | src/src/lib/models/Board.ts:253-255 | `handleMove` on a trimmed state makes one more move and shows the pushed pair as current |
| GameLaws.HandleMoveAfter | src/src/lib/models/Board.ts:238-254 | the new current boards are `player ^ (put \| rev)` for the mover and `opponent ^ rev` for the other side |
| GameLaws.HandleMoveApart | src/src/lib/models/Board.ts:237-254 | a legal move on disjoint current boards leaves disjoint current boards |
| GameLaws.LegalMoveFits | src/src/lib/models/Board.ts:238-254 | a legal cell is vacant and flips discs of the opponent only |
| GameLaws.LegalMoveBoards | src/src/lib/models/Board.ts:253-254 | for a legal move the updates add the cell and the flips to the mover, remove the flips from the opponent, and leave the boards disjoint |
| GameLaws.MakeMoveLog | src/src/lib/models/Board.ts:229-234 | `makeMove` clears the undo count and appends one turn to the log with the undone turns taken back |
| GameLaws.MakeMoveMoves | src/src/lib/models/Board.ts:224-235 | `moves()` grows by the move made, and `movesMade()` by one |
| GameLaws.MakeMoveProgress | src/src/lib/models/Board.ts:224-263 | after `makeMove` the side to move can move, or the game is over |
| GameLaws.TruncateTrimmed | src/src/lib/models/Board.ts:229-232 | the first lines of `makeMove` leave one board pair per move made and nothing undone |
| GameLaws.TruncateFixes | src/src/lib/models/Board.ts:229-232 | on such a state they change nothing |
| GameLaws.TruncateIdempotent | src/src/lib/models/Board.ts:229-232 | doing them twice is doing them once |
| GameLaws.MakeMoveTrimmed | src/src/lib/models/Board.ts:224-235 | on such a state `makeMove` is `handleMove` when the move is legal, and fails otherwise |
| GameLaws.HandleMoveGrows | src/src/lib/models/Board.ts:253-254 | `handleMove` pushes one pair and keeps the earlier boards |
| GameLaws.MakeMoveCurrent | src/src/lib/models/Board.ts:229-254 | after `makeMove` the boards are those up to the old current turn, then the new pair |
| GameLaws.MakeMoveBoards | src/src/lib/models/Board.ts:224-254 | the current boards after `makeMove` are the XOR updates of the current boards before it |
| GameLaws.MakeMoveApart | src/src/lib/models/Board.ts:224-254 | `makeMove` on disjoint current boards leaves disjoint current boards |
| GameInvariant.LegalMoveFlipsSome | src/src/lib/models/Board.ts:241-252 | a legal move flips at least one disc |
| GameInvariant.LegalMoveCounts | src/src/lib/models/Board.ts:253-254 | a legal move gives the mover the placed and the flipped discs, takes the flipped ones from the opponent, and adds one disc to the board |
| GameInvariant.HandleMoveCounts | src/src/lib/models/Board.ts:237-254 | `handleMove` adds exactly one disc in total; the mover gains at least two and the opponent loses at least one |
| GameInvariant.MakeMoveCounts | src/src/lib/models/Board.ts:224-254 | the same for `makeMove` |
| GameInvariant.ValidCurrent | src/src/lib/models/Board.ts:67-77 | a valid state has disjoint current boards |
| GameInvariant.RetractOnBoard | src/src/lib/models/Board.ts:46-51 | taking back turns keeps every logged move on the board |
| GameInvariant.MakeMoveLengths | src/src/lib/models/Board.ts:229-255 | after `makeMove` there is one board pair per logged move, plus the starting pair |
| GameInvariant.MakeMoveAllApart | src/src/lib/models/Board.ts:229-254 | `makeMove` keeps the boards of every turn disjoint |
| GameInvariant.MakeMoveOnBoard | src/src/lib/models/Board.ts:224-255 | `makeMove` logs only cells of the board |
| GameInvariant.MakeMoveWellFormed | src/src/lib/models/Board.ts:229-262 | `makeMove` keeps the log free of a leading pass and of three passes in a row |
| GameInvariant.MakeMoveValid | src/src/lib/models/Board.ts:224-263 | `makeMove` keeps a valid state valid |
| UndoLaws.UndoLog | src/src/lib/models/Board.ts:319-321 | `undo()` takes back exactly one more turn of `allMoves()` |
| UndoLaws.UndoMovesMade | src/src/lib/models/Board.ts:315-321 | when `canUndo()` holds, `undo()` lowers `movesMade()` by exactly one; otherwise none remain |
| UndoLaws.UndoMovesPrefix | src/src/lib/models/Board.ts:56-61 | the moves after `undo()` are a prefix of those before |
| UndoLaws.UndoTakesBack | src/src/lib/models/Board.ts:315-321 | the three facts above together |
| UndoLaws.UndoAfterMakeMoveLog | src/src/lib/models/Board.ts:224-235 | `makeMove` then `undo()` restores `allMoves()`, `moves()` and `movesMade()` |
| UndoLaws.UndoAfterHandleMove | src/src/lib/models/Board.ts:253-262 | `handleMove` then `undo()` restores the log, the boards up to the current turn and the current boards |
| UndoLaws.UndoAfterMakeMoveBoards | src/src/lib/models/Board.ts:67-81 | `makeMove` then `undo()` restores `blackBoard()`, `whiteBoard()` and the boards up to them |
| UndoLaws.UndoTruncates | src/src/lib/models/Board.ts:229-232 | after `makeMove` then `undo()`, the next `makeMove` starts from the same truncated state as before |
| UndoLaws.UndoAfterMakeMove | src/src/lib/models/Board.ts:95-118 | `makeMove` then `undo()` restores `isBlackTurn()`, `playerBoard()`, `opponentBoard()` and `legalBoard()` |
| UndoLaws.RedoAfterUndo | src/src/lib/models/Board.ts:224-235 | making the undone move again discards the undone tail and gives the state the move first gave |
| ReplayLaws.HandleMoveFirst | src/src/lib/models/Board.ts:253-254 | `handleMove` keeps the first boards |
| ReplayLaws.MakeMoveFirst | src/src/lib/models/Board.ts:229-234 | `makeMove` keeps the first boards |
| ReplayLaws.ReplayMoves | src/src/lib/models/Board.ts:22-24 | the constructor's loop adds exactly the given moves to `moves()` and clears the undo count |
| ReplayLaws.ReplayFirst | src/src/lib/models/Board.ts:17-24 | the loop keeps the first boards |
| ReplayLaws.ReplayValid | src/src/lib/models/Board.ts:22-24 | the loop keeps a valid state valid |
| ReplayLaws.ReplaySnoc | src/src/lib/models/Board.ts:22-24 | replaying one more move is replaying the others and then `makeMove` |
| ReplayLaws.ReplayWellFormed | src/src/lib/models/Board.ts:22-24 | the loop keeps the log well formed |
| ReplayLaws.ReplayTrimmed | src/src/lib/models/Board.ts:22-24 | the loop keeps one board pair per move and nothing undone |
| ReplayLaws.TurnUndone | src/src/lib/models/Board.ts:46-81 | after a logged turn, undoing `j` turns shows the state before it with `j - 1` turns undone |
| ReplayLaws.HandleMoveUndone | src/src/lib/models/Board.ts:237-263 | the same for `handleMove` |
| ReplayLaws.MakeMoveUndone | src/src/lib/models/Board.ts:224-235 | the same for `makeMove` |
| ReplayLaws.ReplayLast | src/src/lib/models/Board.ts:22-24 | a replay that succeeds replays all but its last move and then makes the last |
| ReplayLaws.UndoneStep | src/src/lib/models/Board.ts:22-24 | undoing `j` turns of a replay shows the replay of one move fewer with `j - 1` undone |
| ReplayLaws.ReplayUndone | src/src/lib/models/Board.ts:22-26 | replaying all but the last `j` moves gives the current turn of the full replay with `j` turns undone |
| CloneLaws.StartTrimmed | src/src/lib/models/Board.ts:17-20 | the constructor's start has one board pair, an empty log and nothing undone |
| CloneLaws.NewBoardMoves | src/src/lib/models/Board.ts:16-27 | a board the constructor builds has the given moves, the given undo count and the given first boards, or the defaults |
| CloneLaws.CloneNewBoard | src/src/lib/models/Board.ts:29-36 | a board the constructor builds clones to itself |
| CloneLaws.NewBoardValid | src/src/lib/models/Board.ts:16-27 | given disjoint first boards, the constructor builds a valid state |
| CloneLaws.RetractBeyond | src/src/lib/models/Board.ts:46-51 | on a well-formed log, taking back at least as many turns as there are moves leaves nothing |
| CloneLaws.TruncateBeyond | src/src/lib/models/Board.ts:67-81 | undoing more turns than there are moves shows the same current turn as undoing all of them |
| CloneLaws.CurrentReplay | src/src/lib/models/Board.ts:16-36 | the current turn of a board that clones to itself is the replay of `moves()` from its first boards |
| CloneLaws.MakeMoveReplays | src/src/lib/models/Board.ts:22-24 | on such a board, `makeMove(m)` is the replay of `moves()` followed by `m` |
| CloneLaws.CloneMakeMove | src/src/lib/models/Board.ts:29-36 | `makeMove` keeps a board that clones to itself cloning to itself |
| CloneLaws.CloneUndo | src/src/lib/models/Board.ts:319-321 | `undo()` keeps a board that clones to itself cloning to itself |
| SliceFinding.MovesAsWrittenOverUndo | src/src/lib/models/Board.ts:56-61 | with `n` moves and `n < undoCount < 2n`, the slice as written keeps `2n - undoCount` moves, where `allMoves()` and the clamped slice keep none |
| SliceFinding.OverUndoExample | src/src/lib/models/Board.ts:319-321 | moves 19 and 34 and three undos: the slice as written shows move 19, while `allMoves()` is empty and the clamped `movesMade()` is 0 |
| Opening.OpeningLegal | src/src/lib/models/Board.ts:136-213 | from the default discs, black's legal board is `0x0000102004080000` |
| Opening.LegalCellsOf | src/src/lib/models/Board.ts:323-331 | that board holds cells 19, 26, 37 and 44 |
| Opening.FirstMoveFlips | src/src/lib/models/Board.ts:241-252 | black's move 19 from the default discs flips cell 27 (`0x8000000`) |
| Opening.FirstMoveBoards | src/src/lib/models/Board.ts:253-254 | after it, black is `0x0000000818080000` and white `0x0000001000000000` |
| Opening.ReplyLegal | src/src/lib/models/Board.ts:136-213 | white's legal board after it is `0x0000000400140000` |
| OpeningGame.OpeningState | src/src/lib/models/Board.ts:16-27 | a board built with no options has made no move, is black's turn, is not over, and has the default discs |
| OpeningGame.OpeningLegalBoard | src/src/lib/models/Board.ts:215-217 | its `legalBoard()` is `0x0000102004080000` |
| OpeningGame.OpeningMoves | src/src/lib/models/Board.ts:219-222 | moves 19, 26, 37 and 44 can be made |
| OpeningGame.FirstHandle | src/src/lib/models/Board.ts:237-263 | `handleMove(19)` gives the boards above, one move in the log and no pass |
| OpeningGame.FirstSettle | src/src/lib/models/Board.ts:257 | white has a legal move after it, so no pass is added |
| OpeningGame.FirstReply | src/src/lib/models/Board.ts:288-290 | white may then play 34 |
| OpeningGame.FirstMove | src/src/lib/models/Board.ts:224-235 | `makeMove(19)` on a new board gives that state |

## Left out

- Unbounded `bigint` is modelled as `bv64`. In the engine, every shifted value is ANDed with
  a mask inside the 64 cells (a watch mask, the vacant board, a `transfer` mask or
  `BLANK_BOARD`) before use, so bits above 63 never count.
  - A caller-supplied first board that is negative or wider than 64 bits is not modelled:
    the constructor's boards are `bv64`.
- Moves are `int`. `BigInt(move)` throws for a non-integer number, and a non-integer `move`
  is not modelled.
- `undoCount` is a `nat`. A negative or fractional `undoCount` option of the constructor is
  not modelled.
- `throw new Error()` in `makeMove` is the `Failure` result. A constructor whose replay hits
  an illegal move throws in the engine, and it is `Failure` here too.
- `blackBoard()`, `whiteBoard()` and the functions built on them require `Game.Sized`: the
  current index lies inside the board arrays. JavaScript reads `undefined` past the end, and
  that value is not modelled. Every valid state is sized (`Game.ValidSized`).
- The constructor does not check that caller-supplied first boards are disjoint.
  `CloneLaws.NewBoardValid` assumes they are.
- The inner `while` loop of `handleMove` has no bound. The model's walk
  `Flipping.Walk` carries fuel 7. `Directions.VanishesLemma` shows the mask is empty after
  seven steps, so `Flipping.WalkFrom` runs the engine's unbounded loop.
- `Game.Settle` evaluates the second "no legal move" question whether or not the first
  holds. It is a pure query, so this changes nothing.
- The literal lists `legalMoves() == [19, 26, 37, 44]` and the reply list are not
  computed. The legal boards are proved exactly (`Opening.OpeningLegal`,
  `Opening.ReplyLegal`), and `Bitboard.BoardToMoves` lists exactly the cells of a board, in
  order.
- `clone()` does not deep-copy or alias in the model: states are immutable values.
- `undo()` is modelled unguarded, as the engine writes it: it raises `undoCount` even past
  the number of moves, and `canUndo()` is a separate predicate. From there on, the model's
  `moves()` follows the clamped slice of the Findings row, not the engine's slice.
- Game.Moves: clamps the end of `slice(0, length - undoCount)` at 0. Once `undoCount`
  exceeds the number of moves, the engine counts the end from the back instead (Findings).
  The members below state the clamped behaviour, which the engine shows only while
  `undoCount` is at most the number of moves.
- UndoLaws.UndoMovesMade: "otherwise none remain" is the clamped `moves()`. With two moves
  and `undoCount` going from 2 to 3, the engine's `movesMade()` goes from 0 to 1.
- UndoLaws.UndoMovesPrefix: holds for the clamped `moves()` only. In the same case the
  engine's `moves()` goes from `[]` to `[19]`.
- UndoLaws.UndoTakesBack: combines the two lemmas above, and carries their gaps once
  `undoCount` exceeds the number of moves.
- CloneLaws.TruncateBeyond: follows the clamped `movesMade()`. With two moves and
  `undoCount` 3, the engine shows the boards of turn 1, not of turn 0.
- Rendering and other consumers of `cells()` are not part of this model. The build
  configuration `src/vite.config.ts` is not part of this model either.

## Findings

| source | as written | input that shows it | evidently intended | confidence | as-written member | corrected member |
|---|---|---|---|---|---|---|
| src/src/lib/models/Board.ts:56-61 | `moves()` slices the filtered moves up to `length - undoCount`, and `undo()` (lines 319-321) does not check `canUndo()`. Once `undoCount` exceeds the number of moves `n`, the end is negative and counts from the back. | Log `[19, 34]` and `undoCount` 3 (two moves, three undos). `moves()` gives `[19]` and `movesMade()` 1, while `allMoves()` is empty; so `blackBoard()` shows turn 1 while `isBlackTurn()` sees an empty log. In general, for `n < undoCount < 2n`, `2n - undoCount` moves come back. | No moves once every turn is undone, as `allMoves()` already does. | not executed | SliceFinding.MovesAsWrittenOverUndo, SliceFinding.OverUndoExample (on `Game.MovesAsWritten`) | Game.MovesMadeLog (on `Game.Moves`, end clamped at 0) |
