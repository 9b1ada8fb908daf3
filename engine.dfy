/** The game state machine: starting a game, one update tick, and resetting
    the board. The program's global `game` is passed explicitly. */
module Engine {
  import opened Grids
  import opened Boxes
  import opened Games
  import opened Players
  import opened Ai

  /** The part of the game one update tick reads and writes. */
  datatype Snapshot = Snapshot(state: GameState, board: Board, scores: seq<int>, current: int)

  /** The level `UpdateGame` gives the computer player. */
  const UpdateLevel: Difficulty := Medium

  ghost function Snap(game: Game): Snapshot
    reads game, game.grid, game.grid.hEdges, game.grid.vEdges, game.grid.owners, game.scores
  {
    Snapshot(game.state, game.grid.Model(), game.scores[..], game.currentPlayer)
  }

  ghost predicate SnapshotOk(s: Snapshot) {
    WellFormed(s.board) && |s.scores| == 2 && (s.current == 0 || s.current == 1)
  }

  /** The number of boxes the computer's move claims on this tick. */
  function AiClaims(s: Snapshot, pick: nat): (n: int)
    requires WellFormed(s.board)
    ensures 0 <= n <= 2
  {
    match Choice(UpdateLevel, s.board, pick)
    case None => 0
    case Some(m) => Commit(s.board, m, s.current).1
  }

  /** One call of `UpdateGame`, as written: nothing happens outside play; a
      board with every box owned ends the game; on the computer's turn it
      plays one medium move and then always hands the turn over, because the
      switch test is given the constant 0; a human turn changes nothing. */
  function Step(s: Snapshot, aiTurn: bool, pick: nat): (t: Snapshot)
    requires SnapshotOk(s)
    ensures SnapshotOk(t) && t.board.rows == s.board.rows && t.board.cols == s.board.cols
    ensures t.state == s.state || (s.state == Playing && t.state == GameOver)
  {
    if s.state != Playing then s
    else if AllBoxesOwned(s.board) then s.(state := GameOver)
    else if aiTurn then
      var (b, scores) := Outcome(s.board, s.scores, s.current, Choice(UpdateLevel, s.board, pick));
      var current := if ShouldSwitch(0) then Opponent(s.current) else s.current;
      Snapshot(s.state, b, scores, current)
    else s
  }

  /** The same tick with the switch test given the number of boxes the move
      claimed, so that a player who claims a box moves again. */
  function StepWithExtraTurn(s: Snapshot, aiTurn: bool, pick: nat): (t: Snapshot)
    requires SnapshotOk(s)
    ensures SnapshotOk(t) && t.board.rows == s.board.rows && t.board.cols == s.board.cols
    ensures t.state == s.state || (s.state == Playing && t.state == GameOver)
  {
    if s.state != Playing then s
    else if AllBoxesOwned(s.board) then s.(state := GameOver)
    else if aiTurn then
      var (b, scores) := Outcome(s.board, s.scores, s.current, Choice(UpdateLevel, s.board, pick));
      var current := if ShouldSwitch(AiClaims(s, pick)) then Opponent(s.current) else s.current;
      Snapshot(s.state, b, scores, current)
    else s
  }

  /** An incomplete box has an undrawn side, and that side is a valid move. */
  lemma IncompleteBoxLeavesAMove(b: Board, r: int, c: int)
    requires WellFormed(b) && BoxInRange(b, r, c) && !IsComplete(b, r, c)
    ensures ValidMoves(b) != []
  {
    ValidMovesMembers(b);
    if !Drawn(b, Move(Horizontal, r, c)) {
      assert Move(Horizontal, r, c) in ValidMoves(b);
    } else if !Drawn(b, Move(Horizontal, r + 1, c)) {
      assert Move(Horizontal, r + 1, c) in ValidMoves(b);
    } else if !Drawn(b, Move(Vertical, r, c)) {
      assert Move(Vertical, r, c) in ValidMoves(b);
    } else {
      assert Move(Vertical, r, c + 1) in ValidMoves(b);
    }
  }

  /** While some box is unowned on a consistent board, some edge is undrawn:
      an unowned box is incomplete, so one of its sides is still free. */
  lemma UnownedBoxLeavesAMove(b: Board, scores: seq<int>)
    requires Consistent(b, scores) && !AllBoxesOwned(b)
    ensures ValidMoves(b) != []
  {
    var i :| 0 <= i < |b.owners| && b.owners[i] == Unowned;
    SlotCell(b.rows, b.cols, i);
    var r, c := i / b.cols, i % b.cols;
    assert BoxIndex(b.cols, r, c) == i;
    assert BoxInRange(b, r, c) && OwnerOf(b, r, c) == Unowned;
    IncompleteBoxLeavesAMove(b, r, c);
  }

  /** A tick keeps the board and the scores consistent. */
  lemma StepKeepsConsistent(s: Snapshot, aiTurn: bool, pick: nat)
    requires SnapshotOk(s) && Consistent(s.board, s.scores)
    ensures Consistent(Step(s, aiTurn, pick).board, Step(s, aiTurn, pick).scores)
  {
    if s.state == Playing && !AllBoxesOwned(s.board) && aiTurn {
      var choice := Choice(UpdateLevel, s.board, pick);
      if choice.Some? {
        OutcomeKeepsConsistent(s.board, s.scores, s.current, choice.value);
      }
    }
  }

  /** On the computer's turn in a game still in play, the tick draws exactly
      one previously undrawn edge, credits only the mover, and passes the turn. */
  lemma AiStepPlaysOneMove(s: Snapshot, pick: nat)
    requires SnapshotOk(s) && Consistent(s.board, s.scores)
    requires s.state == Playing && !AllBoxesOwned(s.board)
    ensures Choice(UpdateLevel, s.board, pick).Some?
    ensures var t := Step(s, true, pick);
      var m := Choice(UpdateLevel, s.board, pick).value;
      m in ValidMoves(s.board) &&
      (forall e :: e in ValidMoves(t.board) <==> e in ValidMoves(s.board) && e != m) &&
      t.scores[s.current] == s.scores[s.current] + AiClaims(s, pick) &&
      t.scores[Opponent(s.current)] == s.scores[Opponent(s.current)] &&
      t.current == Opponent(s.current) && t.state == Playing
  {
    UnownedBoxLeavesAMove(s.board, s.scores);
    var m := Choice(UpdateLevel, s.board, pick).value;
    ValidMovesMembers(s.board);
    OutcomeDrawsTheMove(s.board, s.scores, s.current, m);
  }

  /** As written, the computer hands over the turn even after a move that
      claims a box: on a one-box board missing only its right side, the
      computer claims the box and player 1 is to move. */
  lemma AiTurnPassesAfterClaim()
    ensures var s := Snapshot(Playing, Board(1, 1, [true, true], [true, false], [Unowned]), [0, 0], 0);
      AiClaims(s, 0) == 1 && Step(s, true, 0).current == 1
  {
    var b := Board(1, 1, [true, true], [true, false], [Unowned]);
    var s := Snapshot(Playing, b, [0, 0], 0);
    var m := Move(Vertical, 0, 1);
    assert Drawn(b, Move(Horizontal, 0, 0)) && Drawn(b, Move(Horizontal, 1, 0));
    assert Drawn(b, Move(Vertical, 0, 0)) && !Drawn(b, m);
    assert ValidMoves(b) == [m];
    LastEdgeIsForced(UpdateLevel, b, 0);
    var d := DrawEdge(b, m);
    assert d == Board(1, 1, [true, true], [true, true], [Unowned]);
    assert IsComplete(d, 0, 0);
  }

  /** With the claim count passed to the switch test, the turn passes after
      the computer's move exactly when that move claimed nothing. */
  lemma ExtraTurnFollowsClaims(s: Snapshot, pick: nat)
    requires SnapshotOk(s) && s.state == Playing && !AllBoxesOwned(s.board)
    ensures StepWithExtraTurn(s, true, pick).current != s.current <==> AiClaims(s, pick) == 0
    ensures StepWithExtraTurn(s, true, pick).board == Step(s, true, pick).board
    ensures StepWithExtraTurn(s, true, pick).scores == Step(s, true, pick).scores
  {
  }

  /** `InitGame`: starts a game of the given mode on a fresh 5 x 5 board. */
  method InitGame(game: Game, mode: GameMode)
    requires game.Valid()
    modifies game`mode, game`state, game`currentPlayer, game`extraTurn, game.grid, game.scores, game.players
    ensures game.Valid() && game.Sound()
    ensures game.mode == mode && game.state == Playing && game.currentPlayer == 0 && !game.extraTurn
    ensures game.grid.Model() == EmptyBoard(BoardSize, BoardSize) && game.scores[..] == [0, 0]
    ensures fresh(game.grid.hEdges) && fresh(game.grid.vEdges) && fresh(game.grid.owners)
    ensures forall i :: 0 <= i < 2 ==> game.players[i].id == i && game.players[i].score == 0
    ensures game.players[0].color == Red && game.players[1].color == Blue
    ensures game.players[0].isAi <==> mode == Mvm
    ensures game.players[1].isAi <==> mode == Pvm || mode == Mvm
  {
    game.mode := mode;
    game.state := Playing;
    game.currentPlayer := 0;
    game.scores[0] := 0;
    game.scores[1] := 0;
    game.extraTurn := false;
    Init(game.grid, BoardSize, BoardSize);
    PlayersInit(game);
    assert game.scores[..] == [0, 0];
    EmptyBoardConsistent(BoardSize, BoardSize);
  }

  /** `UpdateGame` without its input stub: one tick of the state machine. */
  method UpdateGame(game: Game, pick: nat)
    requires game.Valid() && game.Sound()
    modifies game`state, game`currentPlayer
    modifies game.grid.hEdges, game.grid.vEdges, game.grid.owners, game.scores
    ensures game.Valid() && game.Sound()
    ensures Snap(game) == Step(old(Snap(game)), old(game.players[game.currentPlayer].isAi), pick)
  {
    ghost var s := Snap(game);
    StepKeepsConsistent(s, game.players[game.currentPlayer].isAi, pick);
    if game.state != Playing {
      return;
    }
    var over := GameIsOver(game.grid);
    if over {
      game.state := GameOver;
      return;
    }
    if game.players[game.currentPlayer].isAi {
      var difficulty := UpdateLevel;
      MakeMove(game, difficulty, pick);
      if ShouldSwitch(0) {
        PlayerSwitch(game);
      }
    }
  }

  /** `ResetGrid`: a fresh 5 x 5 board, zero scores, player 0 to move, and
      play resumed; mode, players and the extra-turn flag are kept. */
  method ResetGrid(game: Game)
    requires game.Valid()
    modifies game`state, game`currentPlayer, game.grid, game.scores
    ensures game.Valid() && game.Sound()
    ensures game.grid.Model() == EmptyBoard(BoardSize, BoardSize) && game.scores[..] == [0, 0]
    ensures game.currentPlayer == 0 && game.state == Playing
    ensures game.mode == old(game.mode) && game.extraTurn == old(game.extraTurn)
    ensures game.players[..] == old(game.players[..])
    ensures fresh(game.grid.hEdges) && fresh(game.grid.vEdges) && fresh(game.grid.owners)
  {
    Init(game.grid, BoardSize, BoardSize);
    game.scores[0] := 0;
    game.scores[1] := 0;
    game.currentPlayer := 0;
    game.state := Playing;
    assert game.scores[..] == [0, 0];
    EmptyBoardConsistent(BoardSize, BoardSize);
  }

  /** The frame loop of `main`: one `UpdateGame` per frame, `picks[k]`
      standing for the random number of frame k. Every frame keeps the game
      invariant, and a started game never goes back to the menu. */
  method RunFrames(game: Game, picks: seq<nat>)
    requires game.Valid() && game.Sound() && game.state != Menu
    modifies game`state, game`currentPlayer
    modifies game.grid.hEdges, game.grid.vEdges, game.grid.owners, game.scores
    ensures game.Valid() && game.Sound() && game.state != Menu
  {
    for k := 0 to |picks|
      invariant game.Valid() && game.Sound() && game.state != Menu
    {
      UpdateGame(game, picks[k]);
    }
  }

  /** The program's lifetime without its window: `InitGame`, then the frame
      loop. The new arrays `InitGame` allocates are the ones the frames then
      update. */
  method Play(game: Game, mode: GameMode, picks: seq<nat>)
    requires game.Valid()
    modifies game`mode, game`state, game`currentPlayer, game`extraTurn, game.grid, game.scores, game.players
    ensures game.Valid() && game.Sound() && game.state != Menu
    ensures game.mode == mode
  {
    InitGame(game, mode);
    RunFrames(game, picks);
  }
}
