/** The turn and result rules: player set-up per mode, switching turns, the
    end of the game and the winner. */
module Players {
  import opened Grids
  import opened Boxes
  import opened Games

  /** `Players_Init`: player 0 is red and player 1 blue, both with id equal to
      their index and score 0; which of them the AI controls depends on the
      mode. */
  method PlayersInit(game: Game)
    requires game.players.Length == 2
    modifies game.players
    ensures forall i :: 0 <= i < 2 ==> game.players[i].id == i && game.players[i].score == 0
    ensures game.players[0].color == Red && game.players[1].color == Blue
    ensures game.mode == Pvp || game.mode == Solo ==> !game.players[0].isAi && !game.players[1].isAi
    ensures game.mode == Pvm ==> !game.players[0].isAi && game.players[1].isAi
    ensures game.mode == Mvm ==> game.players[0].isAi && game.players[1].isAi
  {
    game.players[0] := game.players[0].(id := 0, color := Red, score := 0, isAi := false);
    game.players[1] := game.players[1].(id := 1, color := Blue, score := 0);
    match game.mode
    case Pvp =>
      game.players[1] := game.players[1].(isAi := false);
    case Solo =>
      game.players[1] := game.players[1].(isAi := false);
    case Pvm =>
      game.players[1] := game.players[1].(isAi := true);
    case Mvm =>
      game.players[0] := game.players[0].(isAi := true);
      game.players[1] := game.players[1].(isAi := true);
  }

  /** The player who moves after `p` when the turn passes. */
  function Opponent(p: int): (q: int)
    ensures p == 0 || p == 1 ==> (q == 0 || q == 1) && q != p
    ensures p + q == 1
  {
    1 - p
  }

  /** Passing the turn twice gives it back. */
  lemma OpponentTwice(p: int)
    ensures Opponent(Opponent(p)) == p
  {
  }

  /** `Player_Switch`: the turn passes to the other player. */
  method PlayerSwitch(game: Game)
    modifies game`currentPlayer
    ensures game.currentPlayer == Opponent(old(game.currentPlayer))
  {
    game.currentPlayer := 1 - game.currentPlayer;
  }

  /** `Player_ShouldSwitch`: the turn passes exactly when the move claimed no box. */
  function ShouldSwitch(claimed: int): (switch: bool)
    ensures switch <==> claimed == 0
  {
    claimed == 0
  }

  /** Every box has an owner. */
  predicate AllBoxesOwned(b: Board) {
    forall i :: 0 <= i < |b.owners| ==> b.owners[i] != Unowned
  }

  /** `Game_IsOver`: scans the owners and stops at the first unowned box. */
  method GameIsOver(g: Grid) returns (over: bool)
    requires g.Valid()
    ensures over == AllBoxesOwned(g.Model())
  {
    var i := 0;
    while i < g.rows * g.cols
      invariant 0 <= i <= g.rows * g.cols
      invariant forall j :: 0 <= j < i ==> g.owners[j] != Unowned
    {
      if g.owners[i] == Unowned {
        return false;
      }
      i := i + 1;
    }
    return true;
  }

  /** `Game_GetWinner`: the index of the player with the strictly higher score,
      or -1 for a tie. */
  function GetWinner(scores: seq<int>): (w: int)
    requires |scores| == 2
    ensures w == 0 <==> scores[0] > scores[1]
    ensures w == 1 <==> scores[1] > scores[0]
    ensures w == -1 <==> scores[0] == scores[1]
  {
    if scores[0] > scores[1] then 0
    else if scores[1] > scores[0] then 1
    else -1
  }

  /** The results named for the game: 3-2 and 2-3 have a winner, 2-2 is a tie. */
  lemma WinnerExamples()
    ensures GetWinner([3, 2]) == 0 && GetWinner([2, 3]) == 1 && GetWinner([2, 2]) == -1
  {
  }

  /** When every slot belongs to player 0 or player 1, their counts add up to
      the number of slots. */
  lemma {:induction false} CountsPartition(o: seq<int>)
    requires forall i :: 0 <= i < |o| ==> o[i] == 0 || o[i] == 1
    ensures CountOwned(o, 0) + CountOwned(o, 1) == |o|
    decreases |o|
  {
    if |o| > 0 {
      CountsPartition(o[..|o| - 1]);
    }
  }

  /** Once every box is owned, the two scores add up to the number of boxes. */
  lemma FinalScoresCoverBoard(b: Board, scores: seq<int>)
    requires Consistent(b, scores) && AllBoxesOwned(b)
    ensures scores[0] + scores[1] == b.rows * b.cols
  {
    CountsPartition(b.owners);
  }
}
