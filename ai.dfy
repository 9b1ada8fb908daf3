/** The computer player: listing the undrawn edges, simulating a move on a
    copy of the grid, and the four strategies (random, easy, medium, hard). */
module Ai {
  import opened Grids
  import opened Boxes
  import opened Games

  /** The strength of the computer player. */
  datatype Difficulty = Random | Easy | Medium | Hard

  datatype Option<T> = None | Some(value: T)

  /** Capacity of the move buffer every strategy fills. */
  const MoveBufferSize: int := 200

  // ---------------------------------------------------------------------
  // The list of undrawn edges
  // ---------------------------------------------------------------------

  /** The undrawn edges of kind `k` in row `r`, columns 0 .. n-1, in column order. */
  function RowMoves(b: Board, k: Orientation, r: int, n: int): seq<Move>
    requires WellFormed(b) && 0 <= r < Height(b.rows, k) && 0 <= n <= Width(b.cols, k)
    decreases n
  {
    if n == 0 then []
    else
      var m := Move(k, r, n - 1);
      RowMoves(b, k, r, n - 1) + (if Drawn(b, m) then [] else [m])
  }

  /** The undrawn edges of kind `k` in rows 0 .. n-1, row by row. */
  function KindMoves(b: Board, k: Orientation, n: int): seq<Move>
    requires WellFormed(b) && 0 <= n <= Height(b.rows, k)
    decreases n
  {
    if n == 0 then []
    else KindMoves(b, k, n - 1) + RowMoves(b, k, n - 1, Width(b.cols, k))
  }

  /** The list `GetValidMoves` produces: all undrawn horizontal edges row by
      row, then all undrawn vertical edges row by row. */
  function ValidMoves(b: Board): (ms: seq<Move>)
    requires WellFormed(b)
    ensures forall e :: e in ms ==> InBounds(b, e) && !Drawn(b, e)
    ensures ListedInBounds(b, ms)
  {
    KindMovesListsUndrawn(b, Horizontal, Height(b.rows, Horizontal));
    KindMovesListsUndrawn(b, Vertical, Height(b.rows, Vertical));
    KindMoves(b, Horizontal, Height(b.rows, Horizontal)) +
    KindMoves(b, Vertical, Height(b.rows, Vertical))
  }

  lemma {:induction false} RowMovesMember(b: Board, k: Orientation, r: int, n: int, e: Move)
    requires WellFormed(b) && 0 <= r < Height(b.rows, k) && 0 <= n <= Width(b.cols, k)
    ensures e in RowMoves(b, k, r, n) <==>
      e.kind == k && e.r == r && 0 <= e.c < n && !Drawn(b, e)
    decreases n
  {
    if n > 0 {
      RowMovesMember(b, k, r, n - 1, e);
    }
  }

  lemma {:induction false} KindMovesMember(b: Board, k: Orientation, n: int, e: Move)
    requires WellFormed(b) && 0 <= n <= Height(b.rows, k)
    ensures e in KindMoves(b, k, n) <==>
      e.kind == k && 0 <= e.r < n && 0 <= e.c < Width(b.cols, k) && !Drawn(b, e)
    decreases n
  {
    if n > 0 {
      KindMovesMember(b, k, n - 1, e);
      RowMovesMember(b, k, n - 1, Width(b.cols, k), e);
    }
  }

  lemma KindMovesListsUndrawn(b: Board, k: Orientation, n: int)
    requires WellFormed(b) && 0 <= n <= Height(b.rows, k)
    ensures forall e :: e in KindMoves(b, k, n) ==> InBounds(b, e) && !Drawn(b, e)
  {
    forall e | e in KindMoves(b, k, n)
      ensures InBounds(b, e) && !Drawn(b, e)
    {
      KindMovesMember(b, k, n, e);
    }
  }

  /** An edge is listed exactly when it lies on the board and is undrawn. */
  lemma ValidMovesMembers(b: Board)
    requires WellFormed(b)
    ensures forall e :: e in ValidMoves(b) <==> InBounds(b, e) && !Drawn(b, e)
  {
    forall e
      ensures e in ValidMoves(b) <==> InBounds(b, e) && !Drawn(b, e)
    {
      KindMovesMember(b, Horizontal, Height(b.rows, Horizontal), e);
      KindMovesMember(b, Vertical, Height(b.rows, Vertical), e);
    }
  }

  /** The order of the list: horizontal before vertical, then by row, then
      by column. */
  predicate Precedes(x: Move, y: Move) {
    (x.kind == Horizontal && y.kind == Vertical) ||
    (x.kind == y.kind && (x.r < y.r || (x.r == y.r && x.c < y.c)))
  }

  predicate Ordered(ms: seq<Move>) {
    forall i, j :: 0 <= i < j < |ms| ==> Precedes(ms[i], ms[j])
  }

  lemma OrderedConcat(xs: seq<Move>, ys: seq<Move>)
    requires Ordered(xs) && Ordered(ys)
    requires forall x, y :: x in xs && y in ys ==> Precedes(x, y)
    ensures Ordered(xs + ys)
  {
    var zs := xs + ys;
    forall i, j | 0 <= i < j < |zs|
      ensures Precedes(zs[i], zs[j])
    {
      if j < |xs| {
        assert zs[i] == xs[i] && zs[j] == xs[j];
      } else if i >= |xs| {
        assert zs[i] == ys[i - |xs|] && zs[j] == ys[j - |xs|];
      } else {
        assert zs[i] in xs && zs[j] in ys;
      }
    }
  }

  lemma {:induction false} RowMovesOrdered(b: Board, k: Orientation, r: int, n: int)
    requires WellFormed(b) && 0 <= r < Height(b.rows, k) && 0 <= n <= Width(b.cols, k)
    ensures Ordered(RowMoves(b, k, r, n))
    decreases n
  {
    if n > 0 {
      var m := Move(k, r, n - 1);
      var front := RowMoves(b, k, r, n - 1);
      RowMovesOrdered(b, k, r, n - 1);
      forall x | x in front
        ensures Precedes(x, m)
      {
        RowMovesMember(b, k, r, n - 1, x);
      }
      OrderedConcat(front, if Drawn(b, m) then [] else [m]);
    }
  }

  lemma {:induction false} KindMovesOrdered(b: Board, k: Orientation, n: int)
    requires WellFormed(b) && 0 <= n <= Height(b.rows, k)
    ensures Ordered(KindMoves(b, k, n))
    decreases n
  {
    if n > 0 {
      var w := Width(b.cols, k);
      KindMovesOrdered(b, k, n - 1);
      RowMovesOrdered(b, k, n - 1, w);
      forall x, y | x in KindMoves(b, k, n - 1) && y in RowMoves(b, k, n - 1, w)
        ensures Precedes(x, y)
      {
        KindMovesMember(b, k, n - 1, x);
        RowMovesMember(b, k, n - 1, w, y);
      }
      OrderedConcat(KindMoves(b, k, n - 1), RowMoves(b, k, n - 1, w));
    }
  }

  /** The list is strictly ordered, so it never lists an edge twice. */
  lemma ValidMovesOrdered(b: Board)
    requires WellFormed(b)
    ensures Ordered(ValidMoves(b))
    ensures forall i, j :: 0 <= i < j < |ValidMoves(b)| ==> ValidMoves(b)[i] != ValidMoves(b)[j]
  {
    var hs := KindMoves(b, Horizontal, Height(b.rows, Horizontal));
    var vs := KindMoves(b, Vertical, Height(b.rows, Vertical));
    KindMovesOrdered(b, Horizontal, Height(b.rows, Horizontal));
    KindMovesOrdered(b, Vertical, Height(b.rows, Vertical));
    forall x, y | x in hs && y in vs
      ensures Precedes(x, y)
    {
      KindMovesMember(b, Horizontal, Height(b.rows, Horizontal), x);
      KindMovesMember(b, Vertical, Height(b.rows, Vertical), y);
    }
    OrderedConcat(hs, vs);
  }

  lemma {:induction false} RowMovesLength(b: Board, k: Orientation, r: int, n: int)
    requires WellFormed(b) && 0 <= r < Height(b.rows, k) && 0 <= n <= Width(b.cols, k)
    ensures |RowMoves(b, k, r, n)| <= n
    decreases n
  {
    if n > 0 {
      RowMovesLength(b, k, r, n - 1);
    }
  }

  lemma {:induction false} KindMovesLength(b: Board, k: Orientation, n: int)
    requires WellFormed(b) && 0 <= n <= Height(b.rows, k)
    ensures |KindMoves(b, k, n)| <= n * Width(b.cols, k)
    decreases n
  {
    if n > 0 {
      KindMovesLength(b, k, n - 1);
      RowMovesLength(b, k, n - 1, Width(b.cols, k));
      MulSucc(n - 1, Width(b.cols, k));
    }
  }

  /** The list never holds more moves than the board has edges. */
  lemma ValidMovesLength(b: Board)
    requires WellFormed(b)
    ensures |ValidMoves(b)| <= NumEdges(b.rows, b.cols)
  {
    KindMovesLength(b, Horizontal, Height(b.rows, Horizontal));
    KindMovesLength(b, Vertical, Height(b.rows, Vertical));
  }

  /** A board of at most `BoardSize` x `BoardSize` boxes fits the move buffer. */
  lemma BoardFitsBuffer(rows: int, cols: int)
    requires 0 <= rows <= BoardSize && 0 <= cols <= BoardSize
    ensures NumEdges(rows, cols) <= MoveBufferSize
  {
    MulMonotone(rows + 1, BoardSize + 1, cols);
    MulMonotone(cols, BoardSize, BoardSize + 1);
    MulMonotone(rows, BoardSize, cols + 1);
    MulMonotone(cols + 1, BoardSize + 1, BoardSize);
  }

  /** What the loops of `GetValidMoves` have listed before row `r` of kind `k`. */
  function ListedBefore(b: Board, k: Orientation, r: int): seq<Move>
    requires WellFormed(b) && 0 <= r <= Height(b.rows, k)
  {
    if k == Horizontal then KindMoves(b, Horizontal, r)
    else KindMoves(b, Horizontal, b.rows + 1) + KindMoves(b, Vertical, r)
  }

  /** Row `r` of kind `k` still fits in a buffer of `NumEdges` moves. */
  lemma RoomForRow(b: Board, k: Orientation, r: int)
    requires WellFormed(b) && 0 <= r < Height(b.rows, k)
    ensures |ListedBefore(b, k, r)| + Width(b.cols, k) <= NumEdges(b.rows, b.cols)
  {
    KindMovesLength(b, Horizontal, r);
    KindMovesLength(b, Vertical, r);
    KindMovesLength(b, Horizontal, b.rows + 1);
    MulSucc(r, Width(b.cols, k));
    MulMonotone(r + 1, Height(b.rows, k), Width(b.cols, k));
    MulMonotone(0, b.rows, b.cols + 1);
  }

  /** The edge test of `GetValidMoves`: reads the edge's flag. */
  method EdgeDrawn(g: Grid, k: Orientation, r: int, c: int) returns (drawn: bool)
    requires g.Valid() && InBounds(g.Model(), Move(k, r, c))
    ensures drawn == Drawn(g.Model(), Move(k, r, c))
  {
    if k == Horizontal {
      IndexHInRange(g.rows, g.cols, r, c);
      drawn := g.hEdges[IndexH(g.cols, r, c)];
    } else {
      IndexVInRange(g.rows, g.cols, r, c);
      drawn := g.vEdges[IndexV(g.cols, r, c)];
    }
  }

  /** One pass of the inner loops of `GetValidMoves`: appends the undrawn
      edges of kind `k` in row `r`, column by column, after the `start`
      moves already listed. */
  method ListRow(g: Grid, moves: array<Move>, k: Orientation, r: int, start: int) returns (count: int)
    requires g.Valid() && 0 <= r < Height(g.rows, k)
    requires 0 <= start && start + Width(g.cols, k) <= moves.Length
    modifies moves
    ensures start <= count <= moves.Length
    ensures moves[..count] == old(moves[..start]) + RowMoves(g.Model(), k, r, Width(g.cols, k))
  {
    ghost var b := g.Model();
    ghost var front := moves[..start];
    count := start;
    for c := 0 to Width(g.cols, k)
      invariant start <= count <= start + c
      invariant moves[..count] == front + RowMoves(b, k, r, c)
    {
      var drawn := EdgeDrawn(g, k, r, c);
      ghost var listed := moves[..count];
      if !drawn {
        moves[count] := Move(k, r, c);
        count := count + 1;
        assert moves[..count] == listed + [Move(k, r, c)];
      }
    }
  }

  /** `GetValidMoves`: fills the buffer with the undrawn edges, horizontal
      ones row by row and then vertical ones row by row, and returns their
      number. */
  method GetValidMoves(g: Grid, moves: array<Move>) returns (count: int)
    requires g.Valid() && NumEdges(g.rows, g.cols) <= moves.Length
    modifies moves
    ensures 0 <= count <= moves.Length
    ensures moves[..count] == ValidMoves(g.Model())
  {
    ghost var b := g.Model();
    count := 0;
    for r := 0 to g.rows + 1
      invariant 0 <= count <= moves.Length
      invariant moves[..count] == ListedBefore(b, Horizontal, r)
    {
      RoomForRow(b, Horizontal, r);
      count := ListRow(g, moves, Horizontal, r, count);
    }
    for r := 0 to g.rows
      invariant 0 <= count <= moves.Length
      invariant moves[..count] == ListedBefore(b, Vertical, r)
    {
      RoomForRow(b, Vertical, r);
      count := ListRow(g, moves, Vertical, r, count);
    }
  }

  // ---------------------------------------------------------------------
  // Simulating and committing a move
  // ---------------------------------------------------------------------

  /** What `SimulateMove` reports: 0 for an edge that is already drawn, and
      otherwise the number of boxes beside the edge that drawing it leaves
      complete and unowned. */
  function SimulatedClaims(b: Board, m: Move): (n: int)
    requires WellFormed(b) && InBounds(b, m)
    ensures 0 <= n <= 2
  {
    if Drawn(b, m) then 0 else ClaimableBeside(DrawEdge(b, m), m)
  }

  /** One test of `SimulateMove`: 1 if box (row, col) is unowned and complete. */
  method CountIfClaimable(g: Grid, row: int, col: int) returns (n: int)
    requires g.Valid() && BoxInRange(g.Model(), row, col)
    ensures n == if Claimable(g.Model(), row, col) then 1 else 0
  {
    BoxIndexInRange(g.rows, g.cols, row, col);
    if g.owners[BoxIndex(g.cols, row, col)] == Unowned && IsComplete(g.Model(), row, col) {
      return 1;
    }
    return 0;
  }

  /** The counting half of `SimulateMove`: for each box beside edge `m`,
      adds 1 if it is unowned and complete. */
  method CountBeside(g: Grid, m: Move) returns (claimed: int)
    requires g.Valid() && InBounds(g.Model(), m)
    ensures claimed == ClaimableBeside(g.Model(), m)
  {
    ghost var b := g.Model();
    claimed := 0;
    if m.kind == Horizontal {
      assert BoxBefore(m) == (m.r - 1, m.c) && (HasBoxBefore(m) <==> m.r > 0);
      assert HasBoxAfter(b, m) <==> m.r < g.rows;
      if m.r > 0 {
        var n := CountIfClaimable(g, m.r - 1, m.c);
        claimed := claimed + n;
      }
      if m.r < g.rows {
        var n := CountIfClaimable(g, m.r, m.c);
        claimed := claimed + n;
      }
    } else {
      assert BoxBefore(m) == (m.r, m.c - 1) && (HasBoxBefore(m) <==> m.c > 0);
      assert HasBoxAfter(b, m) <==> m.c < g.cols;
      if m.c > 0 {
        var n := CountIfClaimable(g, m.r, m.c - 1);
        claimed := claimed + n;
      }
      if m.c < g.cols {
        var n := CountIfClaimable(g, m.r, m.c);
        claimed := claimed + n;
      }
    }
  }

  /** `SimulateMove`: draws the edge on the (scratch) grid, without claiming
      anything, and counts the boxes the move would claim. */
  method SimulateMove(g: Grid, m: Move) returns (claimed: int)
    requires g.Valid() && InBounds(g.Model(), m)
    modifies g.hEdges, g.vEdges
    ensures claimed == SimulatedClaims(old(g.Model()), m)
    ensures g.Model() == DrawEdge(old(g.Model()), m)
  {
    ghost var b := g.Model();
    DrawEdgeIdempotent(b, m);
    if m.kind == Horizontal {
      IndexHInRange(g.rows, g.cols, m.r, m.c);
      var index := IndexH(g.cols, m.r, m.c);
      if g.hEdges[index] {
        return 0;
      }
      g.hEdges[index] := true;
    } else {
      IndexVInRange(g.rows, g.cols, m.r, m.c);
      var index := IndexV(g.cols, m.r, m.c);
      if g.vEdges[index] {
        return 0;
      }
      g.vEdges[index] := true;
    }
    assert g.Model() == DrawEdge(b, m);
    claimed := CountBeside(g, m);
  }

  /** The scratch grid of the easy and medium strategies: fresh arrays
      holding copies of the grid's edges and owners. */
  method CopyGrid(src: Grid) returns (copy: Grid)
    requires src.Valid()
    ensures fresh(copy) && fresh(copy.hEdges) && fresh(copy.vEdges) && fresh(copy.owners)
    ensures copy.Valid() && copy.Model() == src.Model()
  {
    copy := new Grid();
    copy.rows := src.rows;
    copy.cols := src.cols;
    copy.hEdges := new bool[src.hEdges.Length](i reads src, src.hEdges requires 0 <= i < src.hEdges.Length => src.hEdges[i]);
    copy.vEdges := new bool[src.vEdges.Length](i reads src, src.vEdges requires 0 <= i < src.vEdges.Length => src.vEdges[i]);
    copy.owners := new int[src.owners.Length](i reads src, src.owners requires 0 <= i < src.owners.Length => src.owners[i]);
    assert copy.hEdges[..] == src.hEdges[..];
    assert copy.vEdges[..] == src.vEdges[..];
    assert copy.owners[..] == src.owners[..];
  }

  /** The block the easy and medium strategies run for each candidate: copy
      the grid, simulate the move on the copy, and drop the copy. The live
      grid is left alone. */
  method SimulateOnCopy(g: Grid, m: Move) returns (claimed: int)
    requires g.Valid() && InBounds(g.Model(), m)
    ensures claimed == SimulatedClaims(g.Model(), m)
  {
    var scratch := CopyGrid(g);
    claimed := SimulateMove(scratch, m);
  }

  /** The board and claim count after player `p` draws `m` on the game's
      grid and claims every box it completes. */
  function Commit(b: Board, m: Move, p: int): (res: (Board, int))
    requires WellFormed(b) && InBounds(b, m)
    ensures WellFormed(res.0) && res.0.rows == b.rows && res.0.cols == b.cols
    ensures 0 <= res.1 <= 2
  {
    ClaimAfterSpec(DrawEdge(b, m), m, p);
    ClaimAfter(DrawEdge(b, m), m, p)
  }

  /** For an undrawn edge, the simulation on the scratch grid counts exactly
      the boxes the real move then claims. */
  lemma SimulationPredictsCommit(b: Board, m: Move, p: int)
    requires WellFormed(b) && InBounds(b, m) && !Drawn(b, m)
    ensures SimulatedClaims(b, m) == Commit(b, m, p).1
  {
    ClaimAfterSpec(DrawEdge(b, m), m, p);
  }

  /** The board and scores after the current player `p` plays the chosen
      move, if any: the move's claims are added to p's score. */
  function Outcome(b: Board, scores: seq<int>, p: int, choice: Option<Move>): (res: (Board, seq<int>))
    requires WellFormed(b) && |scores| == 2 && (p == 0 || p == 1)
    requires choice.Some? ==> InBounds(b, choice.value)
    ensures WellFormed(res.0) && res.0.rows == b.rows && res.0.cols == b.cols && |res.1| == 2
    ensures res.1[1 - p] == scores[1 - p] && scores[p] <= res.1[p] <= scores[p] + 2
  {
    match choice
    case None => (b, scores)
    case Some(m) =>
      var (d, n) := Commit(b, m, p);
      (d, scores[p := scores[p] + n])
  }

  /** Two boards with the same edges have the same complete boxes. */
  lemma SameEdgesSameCompleteness(b1: Board, b2: Board, r: int, c: int)
    requires WellFormed(b1) && WellFormed(b2)
    requires b1.rows == b2.rows && b1.cols == b2.cols && b1.h == b2.h && b1.v == b2.v
    ensures IsComplete(b1, r, c) == IsComplete(b2, r, c)
  {
  }

  /** Playing a move keeps the board and the scores consistent: owners stay
      in range, the owned boxes are still exactly the complete ones, and each
      score still counts its player's boxes. */
  lemma OutcomeKeepsConsistent(b: Board, scores: seq<int>, p: int, m: Move)
    requires Consistent(b, scores) && (p == 0 || p == 1) && InBounds(b, m)
    ensures Consistent(Outcome(b, scores, p, Some(m)).0, Outcome(b, scores, p, Some(m)).1)
  {
    var d0 := DrawEdge(b, m);
    var (d, n) := ClaimAfter(d0, m, p);
    assert Outcome(b, scores, p, Some(m)) == (d, scores[p := scores[p] + n]);
    ClaimAfterSpec(d0, m, p);
    ClaimCountIsChangedSlots(d0, m, p);
    ClaimAfterCounts(d0, m, p, 0);
    ClaimAfterCounts(d0, m, p, 1);
    forall i | 0 <= i < |d.owners|
      ensures Unowned <= d.owners[i] <= 1
    {
      if i !in ChangedSlots(d0.owners, d.owners) {
        assert d.owners[i] == b.owners[i];
      }
    }
    forall r, c | BoxInRange(d, r, c)
      ensures OwnerOf(d, r, c) != Unowned <==> IsComplete(d, r, c)
    {
      SameEdgesSameCompleteness(d, d0, r, c);
      CompleteStaysComplete(b, m, r, c);
      DrawOnlyAffectsAdjacent(b, m, r, c);
    }
  }

  /** Playing a move draws that edge and no other, so the list of undrawn
      edges loses exactly that move. */
  lemma OutcomeDrawsTheMove(b: Board, scores: seq<int>, p: int, m: Move)
    requires WellFormed(b) && |scores| == 2 && (p == 0 || p == 1) && InBounds(b, m)
    ensures forall e :: InBounds(b, e) ==>
      (Drawn(Outcome(b, scores, p, Some(m)).0, e) <==> Drawn(b, e) || e == m)
    ensures forall e :: e in ValidMoves(Outcome(b, scores, p, Some(m)).0) <==> e in ValidMoves(b) && e != m
  {
    var d := Outcome(b, scores, p, Some(m)).0;
    forall e | InBounds(b, e)
      ensures Drawn(d, e) <==> Drawn(b, e) || e == m
    {
      DrawEdgeDrawsExactlyOne(b, m, e);
    }
    ValidMovesMembers(b);
    ValidMovesMembers(d);
  }

  // ---------------------------------------------------------------------
  // The strategies' choices
  // ---------------------------------------------------------------------

  /** Every listed move lies on the board. */
  ghost predicate ListedInBounds(b: Board, ms: seq<Move>) {
    forall m :: m in ms ==> InBounds(b, m)
  }

  /** The first index from `i` on whose move the simulation credits with a
      claim (`claiming`) or with none (not `claiming`). */
  function FirstFrom(b: Board, ms: seq<Move>, i: int, claiming: bool): (k: Option<int>)
    requires WellFormed(b) && 0 <= i <= |ms|
    requires ListedInBounds(b, ms)
    ensures k.Some? ==> i <= k.value < |ms| && (SimulatedClaims(b, ms[k.value]) > 0) == claiming
    ensures k.Some? ==> forall j :: i <= j < k.value ==> (SimulatedClaims(b, ms[j]) > 0) != claiming
    ensures k.None? ==> forall j :: i <= j < |ms| ==> (SimulatedClaims(b, ms[j]) > 0) != claiming
    decreases |ms| - i
  {
    if i == |ms| then None
    else if (SimulatedClaims(b, ms[i]) > 0) == claiming then Some(i)
    else FirstFrom(b, ms, i + 1, claiming)
  }

  /** The search from `i` finds `k` when `k` is wanted and nothing from `i`
      up to `k` is. */
  lemma {:induction false} FirstFromFinds(b: Board, ms: seq<Move>, i: int, k: int, claiming: bool)
    requires WellFormed(b) && ListedInBounds(b, ms) && 0 <= i <= k < |ms|
    requires (SimulatedClaims(b, ms[k]) > 0) == claiming
    requires forall j :: i <= j < k ==> (SimulatedClaims(b, ms[j]) > 0) != claiming
    ensures FirstFrom(b, ms, i, claiming) == Some(k)
    decreases k - i
  {
    if i < k {
      FirstFromFinds(b, ms, i + 1, k, claiming);
    }
  }

  /** The search from `i` finds nothing when no move from `i` on is wanted. */
  lemma {:induction false} FirstFromMisses(b: Board, ms: seq<Move>, i: int, claiming: bool)
    requires WellFormed(b) && ListedInBounds(b, ms) && 0 <= i <= |ms|
    requires forall j :: i <= j < |ms| ==> (SimulatedClaims(b, ms[j]) > 0) != claiming
    ensures FirstFrom(b, ms, i, claiming) == None
    decreases |ms| - i
  {
    if i < |ms| {
      FirstFromMisses(b, ms, i + 1, claiming);
    }
  }

  /** `AI_Random`'s choice: the listed move at index `pick` modulo the number
      of moves (`pick` stands for the value of `rand()`). */
  function RandomChoice(b: Board, pick: nat): (choice: Option<Move>)
    requires WellFormed(b)
    ensures choice.None? <==> ValidMoves(b) == []
    ensures choice.Some? ==> choice.value in ValidMoves(b)
    ensures choice.Some? ==> InBounds(b, choice.value) && !Drawn(b, choice.value)
  {
    ValidMovesMembers(b);
    var ms := ValidMoves(b);
    if |ms| == 0 then None else Some(ms[pick % |ms|])
  }

  /** `AI_Easy`'s choice: the first listed move that claims a box, or else
      the random choice. */
  function EasyChoice(b: Board, pick: nat): (choice: Option<Move>)
    requires WellFormed(b)
    ensures choice.None? <==> ValidMoves(b) == []
    ensures choice.Some? ==> choice.value in ValidMoves(b)
    ensures choice.Some? ==> InBounds(b, choice.value) && !Drawn(b, choice.value)
  {
    ValidMovesMembers(b);
    var ms := ValidMoves(b);
    if |ms| == 0 then None
    else match FirstFrom(b, ms, 0, true)
      case Some(k) => Some(ms[k])
      case None => RandomChoice(b, pick)
  }

  /** `AI_Medium`'s choice: the first listed move that claims nothing, or
      else the easy choice. */
  function MediumChoice(b: Board, pick: nat): (choice: Option<Move>)
    requires WellFormed(b)
    ensures choice.None? <==> ValidMoves(b) == []
    ensures choice.Some? ==> choice.value in ValidMoves(b)
    ensures choice.Some? ==> InBounds(b, choice.value) && !Drawn(b, choice.value)
  {
    ValidMovesMembers(b);
    var ms := ValidMoves(b);
    if |ms| == 0 then None
    else match FirstFrom(b, ms, 0, false)
      case Some(k) => Some(ms[k])
      case None => EasyChoice(b, pick)
  }

  /** The move `AI_MakeMove` plays at the given difficulty; the hard level
      plays as the medium one. */
  function Choice(d: Difficulty, b: Board, pick: nat): (choice: Option<Move>)
    requires WellFormed(b)
    ensures choice.None? <==> ValidMoves(b) == []
    ensures choice.Some? ==> InBounds(b, choice.value) && !Drawn(b, choice.value)
  {
    match d
    case Random => RandomChoice(b, pick)
    case Easy => EasyChoice(b, pick)
    case Medium => MediumChoice(b, pick)
    case Hard => MediumChoice(b, pick)
  }

  /** The easy strategy plays the first listed move that claims a box. */
  lemma EasyTakesFirstClaiming(b: Board, pick: nat, k: int)
    requires WellFormed(b) && 0 <= k < |ValidMoves(b)|
    requires SimulatedClaims(b, ValidMoves(b)[k]) > 0
    requires forall j :: 0 <= j < k ==> SimulatedClaims(b, ValidMoves(b)[j]) == 0
    ensures EasyChoice(b, pick) == Some(ValidMoves(b)[k])
  {
    ValidMovesMembers(b);
    var first := FirstFrom(b, ValidMoves(b), 0, true);
    assert first.Some? && first.value == k;
  }

  /** When no move claims a box, the easy strategy plays the random choice. */
  lemma EasyFallsBackToRandom(b: Board, pick: nat)
    requires WellFormed(b)
    requires forall j :: 0 <= j < |ValidMoves(b)| ==> SimulatedClaims(b, ValidMoves(b)[j]) == 0
    ensures EasyChoice(b, pick) == RandomChoice(b, pick)
  {
    ValidMovesMembers(b);
    if ValidMoves(b) != [] {
      var first := FirstFrom(b, ValidMoves(b), 0, true);
      assert first.None?;
    }
  }

  /** The medium strategy plays the first listed move that claims no box. */
  lemma MediumTakesFirstQuiet(b: Board, pick: nat, k: int)
    requires WellFormed(b) && 0 <= k < |ValidMoves(b)|
    requires SimulatedClaims(b, ValidMoves(b)[k]) == 0
    requires forall j :: 0 <= j < k ==> SimulatedClaims(b, ValidMoves(b)[j]) > 0
    ensures MediumChoice(b, pick) == Some(ValidMoves(b)[k])
  {
    ValidMovesMembers(b);
    var first := FirstFrom(b, ValidMoves(b), 0, false);
    assert first.Some? && first.value == k;
  }

  /** When every move claims a box, the medium strategy falls back to the
      easy one, which then plays the first listed move. */
  lemma MediumFallbackTakesFirst(b: Board, pick: nat)
    requires WellFormed(b) && ValidMoves(b) != []
    requires forall j :: 0 <= j < |ValidMoves(b)| ==> SimulatedClaims(b, ValidMoves(b)[j]) > 0
    ensures MediumChoice(b, pick) == Some(ValidMoves(b)[0])
  {
    ValidMovesMembers(b);
    var quiet := FirstFrom(b, ValidMoves(b), 0, false);
    assert quiet.None?;
    EasyTakesFirstClaiming(b, pick, 0);
  }

  /** The medium (and so the hard) strategy never depends on the random
      number. */
  lemma MediumIgnoresPick(b: Board, pick1: nat, pick2: nat)
    requires WellFormed(b)
    ensures MediumChoice(b, pick1) == MediumChoice(b, pick2)
  {
    ValidMovesMembers(b);
    var ms := ValidMoves(b);
    if ms != [] && FirstFrom(b, ms, 0, false).None? {
      MediumFallbackTakesFirst(b, pick1);
      MediumFallbackTakesFirst(b, pick2);
    }
  }

  /** With a single undrawn edge every strategy plays it. */
  lemma LastEdgeIsForced(d: Difficulty, b: Board, pick: nat)
    requires WellFormed(b) && |ValidMoves(b)| == 1
    ensures Choice(d, b, pick) == Some(ValidMoves(b)[0])
  {
    ValidMovesMembers(b);
  }

  // ---------------------------------------------------------------------
  // The strategies on the game
  // ---------------------------------------------------------------------

  /** The grid half of the commit block every strategy repeats: draws the
      move and claims what it completes for player `p`. */
  method CommitOnGrid(g: Grid, m: Move, p: int) returns (claimed: int)
    requires g.Valid() && InBounds(g.Model(), m)
    modifies g.hEdges, g.vEdges, g.owners
    ensures (g.Model(), claimed) == Commit(old(g.Model()), m, p)
  {
    if m.kind == Horizontal {
      var _ := SetHorizontal(g, m.r, m.c);
      claimed := CheckAndClaimAfterHorizontal(g, m.r, m.c, p);
    } else {
      var _ := SetVertical(g, m.r, m.c);
      claimed := CheckAndClaimAfterVertical(g, m.r, m.c, p);
    }
  }

  /** The commit block every strategy repeats: draws the move on the game's
      grid, claims what it completes for the current player and adds the
      count to that player's score. */
  method PlayMove(g: Grid, scores: array<int>, p: int, m: Move)
    requires g.Valid() && InBounds(g.Model(), m)
    requires scores.Length == 2 && scores != g.owners && (p == 0 || p == 1)
    modifies g.hEdges, g.vEdges, g.owners, scores
    ensures (g.Model(), scores[..]) == Outcome(old(g.Model()), old(scores[..]), p, Some(m))
  {
    ghost var b, before := g.Model(), scores[..];
    var claimed := CommitOnGrid(g, m, p);
    ghost var d := g.Model();
    AddToScore(scores, p, claimed);
    assert g.Model() == d;
    OutcomeOfCommit(b, before, p, m, d, claimed);
  }

  /** The outcome of a chosen move is its commit, with the claim count added
      to the mover's score. */
  lemma OutcomeOfCommit(b: Board, scores: seq<int>, p: int, m: Move, d: Board, n: int)
    requires WellFormed(b) && |scores| == 2 && (p == 0 || p == 1) && InBounds(b, m)
    requires (d, n) == Commit(b, m, p)
    ensures Outcome(b, scores, p, Some(m)) == (d, scores[p := scores[p] + n])
  {
  }

  /** Adds a move's claim count to one player's score. */
  method AddToScore(scores: array<int>, p: int, n: int)
    requires 0 <= p < scores.Length
    modifies scores
    ensures scores[..] == old(scores[..])[p := old(scores[p]) + n]
  {
    scores[p] := scores[p] + n;
  }

  /** `AI_Random`. */
  method MoveRandom(game: Game, pick: nat)
    requires game.Valid()
    modifies game.grid.hEdges, game.grid.vEdges, game.grid.owners, game.scores
    ensures (game.grid.Model(), game.scores[..]) ==
      Outcome(old(game.grid.Model()), old(game.scores[..]), game.currentPlayer,
              RandomChoice(old(game.grid.Model()), pick))
  {
    var moves := new Move[MoveBufferSize];
    BoardFitsBuffer(game.grid.rows, game.grid.cols);
    var count := GetValidMoves(game.grid, moves);
    if count == 0 {
      return;
    }
    var selected := moves[pick % count];
    assert selected == ValidMoves(game.grid.Model())[pick % count];
    PlayMove(game.grid, game.scores, game.currentPlayer, selected);
  }

  /** The candidate loop of `AI_Easy` and `AI_Medium`: simulates the listed
      moves in order, each on a fresh copy of the grid, and stops at the first
      one whose simulation claims a box (`claiming`) or claims none (not
      `claiming`). */
  method FirstSimulated(g: Grid, moves: array<Move>, count: int, claiming: bool) returns (found: Option<int>)
    requires g.Valid() && 0 <= count <= moves.Length
    requires moves[..count] == ValidMoves(g.Model())
    ensures found == FirstFrom(g.Model(), moves[..count], 0, claiming)
  {
    ghost var b := g.Model();
    ghost var ms := moves[..count];
    assert ListedInBounds(b, ms);
    for i := 0 to count
      invariant forall j :: 0 <= j < i ==> (SimulatedClaims(b, ms[j]) > 0) != claiming
    {
      assert moves[i] == ms[i] && InBounds(b, ms[i]);
      var claimed := SimulateOnCopy(g, moves[i]);
      if (claimed > 0) == claiming {
        FirstFromFinds(b, ms, 0, i, claiming);
        return Some(i);
      }
    }
    FirstFromMisses(b, ms, 0, claiming);
    return None;
  }

  /** `AI_Easy`: plays the first listed move whose simulation claims a box;
      otherwise plays randomly. */
  method MoveEasy(game: Game, pick: nat)
    requires game.Valid()
    modifies game.grid.hEdges, game.grid.vEdges, game.grid.owners, game.scores
    ensures (game.grid.Model(), game.scores[..]) ==
      Outcome(old(game.grid.Model()), old(game.scores[..]), game.currentPlayer,
              EasyChoice(old(game.grid.Model()), pick))
  {
    var moves := new Move[MoveBufferSize];
    BoardFitsBuffer(game.grid.rows, game.grid.cols);
    var count := GetValidMoves(game.grid, moves);
    if count == 0 {
      return;
    }
    var found := FirstSimulated(game.grid, moves, count, true);
    match found
    case Some(i) =>
      PlayMove(game.grid, game.scores, game.currentPlayer, moves[i]);
    case None =>
      MoveRandom(game, pick);
  }

  /** `AI_Medium`: plays the first listed move whose simulation claims no
      box; otherwise plays as `AI_Easy`. */
  method MoveMedium(game: Game, pick: nat)
    requires game.Valid()
    modifies game.grid.hEdges, game.grid.vEdges, game.grid.owners, game.scores
    ensures (game.grid.Model(), game.scores[..]) ==
      Outcome(old(game.grid.Model()), old(game.scores[..]), game.currentPlayer,
              MediumChoice(old(game.grid.Model()), pick))
  {
    var moves := new Move[MoveBufferSize];
    BoardFitsBuffer(game.grid.rows, game.grid.cols);
    var count := GetValidMoves(game.grid, moves);
    if count == 0 {
      return;
    }
    var found := FirstSimulated(game.grid, moves, count, false);
    match found
    case Some(i) =>
      PlayMove(game.grid, game.scores, game.currentPlayer, moves[i]);
    case None =>
      MoveEasy(game, pick);
  }

  /** `AI_Hard`: plays as `AI_Medium`. */
  method MoveHard(game: Game, pick: nat)
    requires game.Valid()
    modifies game.grid.hEdges, game.grid.vEdges, game.grid.owners, game.scores
    ensures (game.grid.Model(), game.scores[..]) ==
      Outcome(old(game.grid.Model()), old(game.scores[..]), game.currentPlayer,
              MediumChoice(old(game.grid.Model()), pick))
  {
    MoveMedium(game, pick);
  }

  /** `AI_MakeMove`: dispatches on the difficulty. */
  method MakeMove(game: Game, d: Difficulty, pick: nat)
    requires game.Valid()
    modifies game.grid.hEdges, game.grid.vEdges, game.grid.owners, game.scores
    ensures (game.grid.Model(), game.scores[..]) ==
      Outcome(old(game.grid.Model()), old(game.scores[..]), game.currentPlayer,
              Choice(d, old(game.grid.Model()), pick))
  {
    match d
    case Random => MoveRandom(game, pick);
    case Easy => MoveEasy(game, pick);
    case Medium => MoveMedium(game, pick);
    case Hard => MoveHard(game, pick);
  }
}
