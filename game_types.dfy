/** The game record shared by the turn rules, the AI and the state machine:
    the game modes and lifecycle states, the two players, and the game itself
    with its grid, scores and current player. */
module Games {
  import opened Grids
  import opened Boxes

  /** Who controls the two players. */
  datatype GameMode = Pvp | Pvm | Mvm | Solo

  /** The lifecycle of a game. */
  datatype GameState = Menu | Playing | GameOver

  /** A player's display colour, kept only as a tag (`Blank` is the colour of a
      zero-initialised player). */
  datatype Color = Blank | Red | Blue

  /** One of the two players. */
  datatype Player = Player(id: int, color: Color, score: int, isAi: bool)

  /** Side length, in boxes, of the board every game is played on. */
  const BoardSize: int := 5

  /** Every box on the board is owned exactly when it is complete. */
  ghost predicate OwnedIffComplete(b: Board)
    requires WellFormed(b)
  {
    forall r, c :: BoxInRange(b, r, c) ==> (OwnerOf(b, r, c) != Unowned <==> IsComplete(b, r, c))
  }

  /** What the game's rules keep true of a board and the score pair: every
      owner is unowned or a player index, the owned boxes are exactly the
      complete ones, and each score is the number of boxes its player owns. */
  ghost predicate Consistent(b: Board, scores: seq<int>) {
    WellFormed(b) && |scores| == 2 &&
    (forall i :: 0 <= i < |b.owners| ==> Unowned <= b.owners[i] <= 1) &&
    OwnedIffComplete(b) &&
    scores[0] == CountOwned(b.owners, 0) && scores[1] == CountOwned(b.owners, 1)
  }

  /** Nobody owns a box of an owner array that holds no slot of theirs. */
  lemma {:induction false} CountOwnedNone(o: seq<int>, p: int)
    requires forall i :: 0 <= i < |o| ==> o[i] != p
    ensures CountOwned(o, p) == 0
    decreases |o|
  {
    if |o| > 0 {
      CountOwnedNone(o[..|o| - 1], p);
    }
  }

  /** A fresh board with zero scores is consistent. */
  lemma EmptyBoardConsistent(rows: int, cols: int)
    requires 0 <= rows && 0 <= cols
    ensures Consistent(EmptyBoard(rows, cols), [0, 0])
  {
    var b := EmptyBoard(rows, cols);
    forall r, c | BoxInRange(b, r, c)
      ensures OwnerOf(b, r, c) == Unowned && !IsComplete(b, r, c)
    {
      BoxIndexInRange(rows, cols, r, c);
      EmptyBoardIsBlank(rows, cols, Move(Horizontal, r, c));
    }
    CountOwnedNone(b.owners, 0);
    CountOwnedNone(b.owners, 1);
  }

  /** The game record (the program's global `game`, passed explicitly). */
  class Game {
    var mode: GameMode
    var state: GameState
    const grid: Grid
    var currentPlayer: int
    const scores: array<int>
    var extraTurn: bool
    const players: array<Player>

    /** Two scores, two players, a current player that is one of them, and a
        grid no larger than the board every game uses. */
    ghost predicate Valid()
      reads this, grid
    {
      grid.Valid() && scores.Length == 2 && players.Length == 2 &&
      scores != grid.owners &&
      (currentPlayer == 0 || currentPlayer == 1) &&
      grid.rows <= BoardSize && grid.cols <= BoardSize
    }

    /** The board and the scores obey the rules of the game. */
    ghost predicate Sound()
      reads this, grid, grid.hEdges, grid.vEdges, grid.owners, scores
    {
      Consistent(grid.Model(), scores[..])
    }

    /** The zero-initialised game that exists before `InitGame` runs. */
    constructor ()
      ensures Valid() && Sound()
      ensures mode == Pvp && state == Menu && currentPlayer == 0 && !extraTurn
      ensures grid.Model() == EmptyBoard(0, 0) && scores[..] == [0, 0]
      ensures players[..] == [Player(0, Blank, 0, false), Player(0, Blank, 0, false)]
      ensures fresh(grid) && fresh(grid.hEdges) && fresh(grid.vEdges) && fresh(grid.owners)
      ensures fresh(scores) && fresh(players)
    {
      mode := Pvp;
      state := Menu;
      grid := new Grid();
      currentPlayer := 0;
      scores := new int[2](_ => 0);
      extraTurn := false;
      players := new Player[2](_ => Player(0, Blank, 0, false));
      new;
      EmptyBoardConsistent(0, 0);
      assert scores[..] == [0, 0];
    }
  }
}
