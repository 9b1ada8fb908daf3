# Dots-and-Boxes engine in Dafny

This project models the game engine of a small Dots-and-Boxes program written
in C, without its rendering. The board has `rows` x `cols` boxes. Its state is
three flat row-major arrays:

- horizontal edges, `(rows+1)*cols` of them, at slot `r*cols+c`;
- vertical edges, `rows*(cols+1)` of them, at slot `r*(cols+1)+c`;
- box owners, `rows*cols` of them, where `-1` means unowned.

Drawing an edge may complete the one or two boxes beside it. Each complete,
unowned box goes to the mover, and the number claimed is added to that
player's score. The computer player lists the undrawn edges in a fixed order,
simulates candidates on a copy of the grid, and commits exactly one edge.
An update tick moves the game from playing to game over once every box is
owned, or lets the computer move and then passes the turn.

The model has six modules, one per source file plus one for the shared records:

- `Grids` (`grid.dfy`, from `src/grid.c`): the `Board` value (box counts and
  the three arrays as sequences), the index arithmetic and its range and
  injectivity lemmas, drawing an edge, `Grid_claimed_box` as written, and the
  `Grid` class over three arrays with `Init`, `SetHorizontal` and
  `SetVertical`. Every method is proved against a function on
  `Grid.Model()`.
- `Boxes` (`box.dfy`, from `src/box.c`): box completion, claiming one box,
  the two claim-after-edge operations as functions on `Board` and as methods
  on the grid, and what a claim changes and counts.
- `Games` (`game_types.dfy`, from `include/game.h` and `include/player.h`):
  the mode, state, player records and the `Game` class that stands for the
  program's global `game`. It also holds the invariant `Consistent`: owners
  are unowned or a player, the owned boxes are exactly the complete ones, and
  each score counts its player's boxes.
- `Players` (`player.dfy`, from `src/player.c`): player set-up per mode,
  switching turns, the end-of-game scan and the winner.
- `Ai` (`ai.dfy`, from `src/ai.c`):
  - the move list as a function, and the buffer-filling loops proved equal to it;
  - `SimulateMove` on a fresh copy of the grid;
  - the four strategies as methods, each proved to have the effect of a choice
    function (`RandomChoice`, `EasyChoice`, `MediumChoice`) followed by
    `Outcome`.
- `Engine` (`engine.dfy`, from `src/game.c` and the frame loop of
  `src/main.c`): `InitGame` and `ResetGrid`, whose contracts give the new
  game directly; `UpdateGame`, proved against the state-machine function
  `Step`; and `RunFrames` and `Play`, the program's frame loop and its start-up.

The value of `rand()` is the parameter `pick`, and the random index is
`pick % count`, as in the source.

## Model

| member | source | states |
|---|---|---|
| Grids.IndexHInRange | src/grid.c:34-36 | every horizontal edge (0 <= r <= rows, 0 <= c < cols) has a slot inside the `(rows+1)*cols` array |
| Grids.IndexHInjective | src/grid.c:34-36 | distinct horizontal edges never share a slot |
| Grids.IndexVInRange | src/grid.c:38-40 | every vertical edge (0 <= r < rows, 0 <= c <= cols) has a slot inside the `rows*(cols+1)` array |
| Grids.IndexVInjective | src/grid.c:38-40 | distinct vertical edges never share a slot |
| Grids.BoxIndexInRange | src/box.c:15 | every box on the board has an owner slot inside the `rows*cols` array |
| Grids.BoxIndexInjective | src/box.c:15 | distinct boxes never share an owner slot |
| Grids.DrawEdge | src/grid.c:53 | after drawing, the edge is drawn, the board keeps its sizes and no owner changes |
| Grids.DrawEdgeDrawsExactlyOne | src/grid.c:50-62 | drawing edge m leaves exactly the previously drawn edges plus m drawn, so edges only go from undrawn to drawn |
| Grids.DrawEdgeIdempotent | src/grid.c:52 | drawing an already drawn edge changes nothing, so drawing twice equals drawing once |
| Grids.EmptyBoard | src/grid.c:4-14 | a fresh board has the given box counts and array sizes |
| Grids.EmptyBoardIsBlank | src/grid.c:7-13 | on a fresh board no edge is drawn and every owner is -1 |
| Grids.ClaimedBox | src/grid.c:70-81 | answers 0 or 1, and 1 exactly when the bottom, left and right edges are drawn; the top edge plays no part |
| Grids.Grid.constructor | src/game.c:6 | the zero-initialised grid of the global game is a valid 0 x 0 board |
| Grids.Init | src/grid.c:4-14 | the grid gets fresh arrays of sizes `(rows+1)*cols`, `rows*(cols+1)` and `rows*cols`, every edge undrawn and every owner -1 |
| Grids.SetHorizontal | src/grid.c:50-55 | returns true exactly when the edge was undrawn; afterwards that edge is drawn and nothing else changed |
| Grids.SetVertical | src/grid.c:57-62 | the same contract on the vertical edges |
| Boxes.IsComplete | src/box.c:4-11 | a box off the board is never complete |
| Boxes.CompleteImpliesClaimedBox | src/grid.c:70-81 | every complete box makes `Grid_claimed_box` answer 1 |
| Boxes.ClaimedBoxMissesTop | src/grid.c:76 | a box whose top edge alone is missing is reported as completed yet is not complete |
| Boxes.ClaimedBoxIgnoresTop | src/grid.c:76 | on a 1 x 1 board missing only its top edge, `Grid_claimed_box` answers 1 while the box is incomplete |
| Boxes.CompleteStaysComplete | src/box.c:6-10 | drawing any edge never makes a complete box incomplete |
| Boxes.DrawOnlyAffectsAdjacent | src/box.c:18-58 | drawing an edge changes the completeness of no box except the one or two beside it |
| Boxes.Claim | src/box.c:13-16 | a box off the board is ignored; otherwise the box's owner becomes the player and no edge changes |
| Boxes.ClaimTouchesOneBox | src/box.c:13-16 | claiming a box leaves the owner of every other box alone |
| Boxes.ClaimStep | src/box.c:23-26 | one claim block never changes an edge |
| Boxes.ClaimAfterHorizontal | src/box.c:18-37 | claiming after a horizontal edge never changes an edge |
| Boxes.ClaimAfterVertical | src/box.c:39-58 | claiming after a vertical edge never changes an edge |
| Boxes.ClaimAfter | src/ai.c:103-109 | the claim matching the edge's orientation keeps the board's sizes and edges |
| Boxes.ClaimableBeside | src/box.c:18-58 | at most two boxes beside an edge can be claimed |
| Boxes.ClaimAfterSpec | src/box.c:18-58 | the count is the number of adjacent boxes that were unowned and complete; exactly those now belong to the player; every other box keeps its owner |
| Boxes.ClaimStepChanges | src/box.c:23-26 | a claim block changes only its box's owner slot, and does so exactly when it counts 1 |
| Boxes.MaybeClaimStepChanges | src/box.c:20-27 | a guarded claim block counts the slots it changed, each from -1 to the player |
| Boxes.ClaimCountIsChangedSlots | src/box.c:18-58 | the returned count equals the number of owner slots changed, and each one changed from -1 to the player |
| Boxes.ClaimAfterCounts | src/box.c:18-58 | a claim adds its count to the claimer's number of boxes and leaves the other player's number alone |
| Boxes.BoxClaim | src/box.c:13-16 | on the grid, the owners become those of `Claim` and nothing else changes |
| Boxes.ClaimIfComplete | src/box.c:23-26 | on the grid, claims the box exactly when it is unowned and complete, and returns 1 when it did |
| Boxes.CheckAndClaimAfterHorizontal | src/box.c:18-37 | on the grid, the new owners and the count are those of `ClaimAfterHorizontal`, whose meaning `ClaimAfterSpec` states |
| Boxes.CheckAndClaimAfterVertical | src/box.c:39-58 | on the grid, the new owners and the count are those of `ClaimAfterVertical` |
| Games.EmptyBoardConsistent | src/game.c:12-19 | a fresh board with scores 0 and 0 obeys the game invariant |
| Games.Game.constructor | src/game.c:6 | the zero-initialised global game is in the menu state with an empty board, zero scores and player 0 to move, and obeys the invariant |
| Players.PlayersInit | src/player.c:5-28 | ids 0 and 1, scores 0, red and blue; PVP and SOLO give no AI, PVM gives only player 1, MVM gives both |
| Players.Opponent | src/player.c:31 | the other player of 0 or 1 is again 0 or 1 and differs from it |
| Players.OpponentTwice | src/player.c:30-32 | switching twice gives the turn back |
| Players.PlayerSwitch | src/player.c:30-32 | the current player becomes the other one |
| Players.ShouldSwitch | src/player.c:34-36 | the turn passes exactly when no box was claimed |
| Players.GameIsOver | src/player.c:38-43 | the scan answers true exactly when every box has an owner |
| Players.GetWinner | src/player.c:45-49 | 0 exactly when s0 > s1, 1 exactly when s1 > s0, and -1 exactly on a tie |
| Players.WinnerExamples | src/player.c:45-49 | [3,2] gives 0, [2,3] gives 1 and [2,2] gives -1 |
| Players.FinalScoresCoverBoard | src/player.c:38-43 | once every box is owned on a consistent board, the two scores add up to the number of boxes |
| Ai.ValidMoves | src/ai.c:15-39 | every listed move is an undrawn edge of the board |
| Ai.ValidMovesMembers | src/ai.c:15-39 | an edge is listed exactly when it is on the board and undrawn |
| Ai.ValidMovesOrdered | src/ai.c:15-39 | horizontal edges come before vertical ones, each kind row by row and column by column, and no edge is listed twice |
| Ai.ValidMovesLength | src/ai.c:15-39 | the list has at most `(rows+1)*cols + rows*(cols+1)` moves |
| Ai.BoardFitsBuffer | src/ai.c:94 | on a board of at most 5 x 5 boxes every move fits the 200-slot buffer |
| Ai.EdgeDrawn | src/ai.c:19-20 | reading an edge's slot answers whether that edge is drawn |
| Ai.ListRow | src/ai.c:18-26 | one inner loop appends exactly the row's undrawn edges, in column order, after what was listed before |
| Ai.GetValidMoves | src/ai.c:15-39 | the filled prefix of the buffer is exactly the move list `ValidMoves` |
| Ai.SimulatedClaims | src/ai.c:41-91 | a simulation reports between 0 and 2 boxes |
| Ai.CountIfClaimable | src/ai.c:55-57 | counts 1 exactly when the box is unowned and complete |
| Ai.CountBeside | src/ai.c:52-87 | counts the adjacent boxes that are unowned and complete, above and below a horizontal edge or left and right of a vertical one |
| Ai.SimulateMove | src/ai.c:41-91 | a drawn edge gives 0 and no change; otherwise exactly that edge is drawn, no owner changes, and the result counts the adjacent boxes now complete and unowned |
| Ai.CopyGrid | src/ai.c:121-132 | the scratch grid is made of fresh arrays holding the same board |
| Ai.SimulateOnCopy | src/ai.c:121-138 | simulating on a copy returns the simulated count and changes nothing the caller can see |
| Ai.Commit | src/ai.c:103-109 | committing a move keeps the board's sizes and claims 0 to 2 boxes |
| Ai.SimulationPredictsCommit | src/ai.c:134-147 | for an undrawn edge, the simulated count equals the number of boxes the real commit claims |
| Ai.Outcome | src/ai.c:103-109 | a committed move leaves the other player's score unchanged and raises the mover's by 0 to 2 |
| Ai.OutcomeKeepsConsistent | src/ai.c:103-109 | a committed move keeps the game invariant: owners in range, owned boxes exactly the complete ones, scores equal to box counts |
| Ai.OutcomeDrawsTheMove | src/ai.c:103-109 | a committed move draws exactly that edge, so the move list loses exactly that move |
| Ai.FirstFrom | src/ai.c:120-151 | the index found is the first from i on whose simulation claims (or does not claim) a box; with no such index, none of them does |
| Ai.FirstFromFinds | src/ai.c:140-149 | when index k is the first wanted one, the search stops at k |
| Ai.FirstFromMisses | src/ai.c:120-151 | when no index is wanted, the search finds nothing |
| Ai.RandomChoice | src/ai.c:93-110 | no move exactly when the list is empty; otherwise a listed, undrawn edge |
| Ai.EasyChoice | src/ai.c:112-155 | no move exactly when the list is empty; otherwise a listed, undrawn edge |
| Ai.MediumChoice | src/ai.c:157-204 | no move exactly when the list is empty; otherwise a listed, undrawn edge |
| Ai.Choice | src/ai.c:212-233 | at every difficulty, no move exactly when no edge is undrawn; otherwise an undrawn edge |
| Ai.EasyTakesFirstClaiming | src/ai.c:120-150 | the easy strategy plays the first listed move whose simulation claims a box |
| Ai.EasyFallsBackToRandom | src/ai.c:153-154 | when no move claims a box, the easy strategy plays the random choice |
| Ai.MediumTakesFirstQuiet | src/ai.c:165-195 | the medium strategy plays the first listed move whose simulation claims nothing |
| Ai.MediumFallbackTakesFirst | src/ai.c:202-203 | when every move claims a box, the medium strategy plays the first listed move |
| Ai.MediumIgnoresPick | src/ai.c:157-210 | the medium and hard strategies never depend on the random number |
| Ai.LastEdgeIsForced | src/ai.c:93-210 | with one undrawn edge left, every difficulty plays it |
| Ai.CommitOnGrid | src/ai.c:103-109 | on the grid, drawing and claiming give the board and count of `Commit` |
| Ai.PlayMove | src/ai.c:103-109 | on the game, the grid and scores become the `Outcome` of the move |
| Ai.AddToScore | src/ai.c:105 | only the mover's score changes, by the claim count |
| Ai.MoveRandom | src/ai.c:93-110 | with no undrawn edge nothing changes; otherwise the game becomes the outcome of the move at index `pick % count` |
| Ai.FirstSimulated | src/ai.c:120-151 | the candidate loop returns the index `FirstFrom` names, simulating only on copies |
| Ai.MoveEasy | src/ai.c:112-155 | the game becomes the outcome of `EasyChoice` |
| Ai.MoveMedium | src/ai.c:157-204 | the game becomes the outcome of `MediumChoice` |
| Ai.MoveHard | src/ai.c:206-210 | the hard strategy has the effect of the medium one |
| Ai.MakeMove | src/ai.c:212-233 | the game becomes the outcome of the choice the difficulty selects |
| Engine.AiClaims | src/game.c:31-33 | the computer's move on one tick claims 0 to 2 boxes |
| Engine.Step | src/game.c:23-46 | a tick keeps the board's size, two scores and a current player of 0 or 1, and the state either stays or goes from playing to game over |
| Engine.StepWithExtraTurn | src/game.c:35 | the corrected tick keeps the same shape invariants and state progression |
| Engine.IncompleteBoxLeavesAMove | src/game.c:26-33 | an incomplete box has an undrawn side, so the move list is not empty |
| Engine.UnownedBoxLeavesAMove | src/game.c:26-33 | while the game is not over on a consistent board, the computer always has a move |
| Engine.StepKeepsConsistent | src/game.c:23-46 | a tick keeps the game invariant |
| Engine.AiStepPlaysOneMove | src/game.c:31-37 | on the computer's turn in play, the tick draws one listed edge, credits only the mover, passes the turn and stays in play |
| Engine.AiTurnPassesAfterClaim | src/game.c:35 | on a one-box board missing one side, the computer claims the box and still hands the turn to player 1 |
| Engine.ExtraTurnFollowsClaims | src/game.c:35 | with the claim count passed to the switch test, the turn passes exactly when the move claimed nothing; board and scores are unchanged |
| Engine.InitGame | src/game.c:8-21 | state playing, player 0 to move, scores 0, no extra turn, an empty 5 x 5 board on fresh arrays, players with ids 0 and 1, scores 0, red and blue, and AI flags per mode, and the invariant holds |
| Engine.UpdateGame | src/game.c:23-46 | the game after the tick is `Step` of the game before: nothing outside play, game over when every box is owned, a computer move then a switch, or no change on a human turn |
| Engine.ResetGrid | src/game.c:127-134 | a fresh 5 x 5 board on fresh arrays, scores 0, player 0 to move and play resumed; mode, players and the extra-turn flag are kept |
| Engine.RunFrames | src/main.c:10-13 | any number of update frames on a started game keep the game invariant and never go back to the menu |
| Engine.Play | src/main.c:8-13 | after the game is started and any number of frames run, the game invariant holds, the mode is the one chosen and the game is not back in the menu |

## Left out

- Rendering and input: `DrawGame` (src/game.c:48-125), every graphics-library call, and the mouse handling stub of `UpdateGame` (src/game.c:38-45). A human turn is modelled as changing nothing, which is what the stub does.
- The window of `src/main.c` (creation, frame rate, closing) and its `DrawGame` call: `Engine.Play` runs a given number of frames instead of looping until the window closes.
- `srand`, `time` and `rand()` (src/ai.c:100, src/ai.c:213-217): the value of `rand()` is the parameter `pick`, a natural number, since `rand()` is never negative.
- Memory management: `malloc`, `calloc`, `memcpy`, `free` and `Grid_Free`. The scratch grid is a fresh `Grid` with fresh arrays, and `ResetGrid` gets fresh arrays from `Init`.
- Display-only fields: `cell_size`, `offset_x` and `offset_y` are not modelled, and colours are plain tags.
- Lookahead or minimax play: only the comment at src/ai.c:207 mentions it. The hard strategy is the medium one, as in the code.
- Fixed-width integers: the model uses unbounded integers. Every board the program builds is 5 x 5, so no index, count or score comes near 32-bit overflow.
- Grids.Init: models the evident intent, every owner -1. At src/grid.c:12 the loop assigns -1 to the `owners` pointer itself rather than to each element. A pointer overwritten with an integer has no counterpart in Dafny.
- Games.Game.Valid: requires the grid to be at most 5 x 5, the only size the program uses. That bound is what makes every move list fit the 200-slot buffer of the strategies.
- Ai.FirstSimulated: the candidate loops of `AI_Easy` and `AI_Medium` are one method. It returns the index found, and the caller then commits that move, instead of committing inside the loop. The order of simulations and the single commit are the same.
- Ai.ListRow: each inner loop of `GetValidMoves` is a method of its own, called once per row.
- Ai.CountBeside: the counting half of `SimulateMove` is a method of its own, called after the edge is drawn.
- Ai.PlayMove: the commit block the strategies repeat is one method, with the grid, the scores and the mover as parameters.

## Findings

| source | as written | input that shows it | evidently intended | confidence | as-written member | corrected member |
|---|---|---|---|---|---|---|
| src/grid.c:76 | tests `h_edges[h_bot]` twice and never `h_top` | 1 x 1 board with h = [false, true], v = [true, true]: answers 1 although the top edge is missing | a box counts as completed only when all four edges are drawn, as `Box_IsComplete` checks | high; not executed | Boxes.ClaimedBoxIgnoresTop | Boxes.IsComplete |
| src/game.c:35 | `Player_ShouldSwitch(0)` is given the constant 0, so the turn always passes after the computer moves | 1 x 1 board missing only its right edge, computer to move as player 0: it claims the box and player 1 is to move | the claim count is passed in, so a player who claims a box moves again | high; not executed | Engine.AiTurnPassesAfterClaim | Engine.ExtraTurnFollowsClaims |

The first finding does not affect play: the program never calls
`Grid_claimed_box` from the core, and the claim logic uses `Box_IsComplete`.
`Boxes.CompleteImpliesClaimedBox` shows the as-written function never misses
a complete box.

For the second finding, `Engine.Step` is the tick as written, and
`Engine.UpdateGame` is proved against it. `Engine.StepWithExtraTurn` is the
corrected tick. `Engine.ExtraTurnFollowsClaims` proves that it passes the turn
exactly when nothing was claimed, with the same board and scores. The stated
turn rule of the game is that a player who claims a box moves again. The code
does not follow that rule for the computer, and the model follows the code.
