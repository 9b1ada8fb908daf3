/** Box completion and claiming: after an edge is drawn, the one or two boxes
    beside it are examined and each one that is complete and unowned is given
    to the mover. */
module Boxes {
  import opened Grids

  /** Box (row, col) lies on the board. */
  predicate BoxInRange(b: Board, row: int, col: int) {
    0 <= row < b.rows && 0 <= col < b.cols
  }

  /** The owner recorded for box (row, col). */
  function OwnerOf(b: Board, row: int, col: int): int
    requires WellFormed(b) && BoxInRange(b, row, col)
  {
    BoxIndexInRange(b.rows, b.cols, row, col);
    b.owners[BoxIndex(b.cols, row, col)]
  }

  /** `Box_IsComplete`: false off the board; on it, all four edges around the
      box (top, bottom, left, right) are drawn. */
  function IsComplete(b: Board, row: int, col: int): (complete: bool)
    requires WellFormed(b)
    ensures complete ==> BoxInRange(b, row, col)
  {
    if row < 0 || row >= b.rows || col < 0 || col >= b.cols then false
    else
      Drawn(b, Move(Horizontal, row, col)) && Drawn(b, Move(Horizontal, row + 1, col)) &&
      Drawn(b, Move(Vertical, row, col)) && Drawn(b, Move(Vertical, row, col + 1))
  }

  /** Whatever `Grid_claimed_box` misses, it never misses a complete box. */
  lemma CompleteImpliesClaimedBox(b: Board, r: int, c: int)
    requires WellFormed(b) && IsComplete(b, r, c)
    ensures ClaimedBox(b, r, c) == 1
  {
  }

  /** `Grid_claimed_box` reports a box as completed whenever its bottom, left
      and right edges are drawn, even when its top edge is missing. */
  lemma ClaimedBoxMissesTop(b: Board, r: int, c: int)
    requires WellFormed(b) && 0 <= r < b.rows && 0 <= c < b.cols
    requires !Drawn(b, Move(Horizontal, r, c)) && Drawn(b, Move(Horizontal, r + 1, c))
    requires Drawn(b, Move(Vertical, r, c)) && Drawn(b, Move(Vertical, r, c + 1))
    ensures ClaimedBox(b, r, c) == 1 && !IsComplete(b, r, c)
  {
  }

  /** A concrete input on which `Grid_claimed_box` and `Box_IsComplete`
      disagree: a 1 x 1 board with every edge but the top one drawn. */
  lemma ClaimedBoxIgnoresTop()
    ensures var b := Board(1, 1, [false, true], [true, true], [Unowned]);
      WellFormed(b) && ClaimedBox(b, 0, 0) == 1 && !IsComplete(b, 0, 0)
  {
    var b := Board(1, 1, [false, true], [true, true], [Unowned]);
    assert WellFormed(b);
    assert !Drawn(b, Move(Horizontal, 0, 0));
    assert Drawn(b, Move(Horizontal, 1, 0));
    assert Drawn(b, Move(Vertical, 0, 0));
    assert Drawn(b, Move(Vertical, 0, 1));
    ClaimedBoxMissesTop(b, 0, 0);
  }

  /** A drawn edge stays drawn, so a complete box stays complete. */
  lemma CompleteStaysComplete(b: Board, m: Move, r: int, c: int)
    requires WellFormed(b) && InBounds(b, m)
    ensures IsComplete(b, r, c) ==> IsComplete(DrawEdge(b, m), r, c)
  {
    if IsComplete(b, r, c) {
      DrawEdgeDrawsExactlyOne(b, m, Move(Horizontal, r, c));
      DrawEdgeDrawsExactlyOne(b, m, Move(Horizontal, r + 1, c));
      DrawEdgeDrawsExactlyOne(b, m, Move(Vertical, r, c));
      DrawEdgeDrawsExactlyOne(b, m, Move(Vertical, r, c + 1));
    }
  }

  // ---------------------------------------------------------------------
  // The boxes beside an edge
  // ---------------------------------------------------------------------

  /** The box above a horizontal edge, or left of a vertical one. */
  function BoxBefore(m: Move): (int, int) {
    if m.kind == Horizontal then (m.r - 1, m.c) else (m.r, m.c - 1)
  }

  /** The box below a horizontal edge, or right of a vertical one. */
  function BoxAfter(m: Move): (int, int) {
    (m.r, m.c)
  }

  /** The edge is not on the top (left) border, so a box lies before it. */
  predicate HasBoxBefore(m: Move) {
    if m.kind == Horizontal then m.r > 0 else m.c > 0
  }

  /** The edge is not on the bottom (right) border, so a box lies after it. */
  predicate HasBoxAfter(b: Board, m: Move) {
    if m.kind == Horizontal then m.r < b.rows else m.c < b.cols
  }

  /** Box (r, c) has the edge as one of its four sides. */
  predicate Adjacent(m: Move, r: int, c: int) {
    (r, c) == BoxBefore(m) || (r, c) == BoxAfter(m)
  }

  /** Drawing an edge can only complete the boxes beside it: every other box
      is complete afterwards exactly when it was before. */
  lemma DrawOnlyAffectsAdjacent(b: Board, m: Move, r: int, c: int)
    requires WellFormed(b) && InBounds(b, m) && BoxInRange(b, r, c)
    ensures !Adjacent(m, r, c) ==> IsComplete(DrawEdge(b, m), r, c) == IsComplete(b, r, c)
  {
    DrawEdgeDrawsExactlyOne(b, m, Move(Horizontal, r, c));
    DrawEdgeDrawsExactlyOne(b, m, Move(Horizontal, r + 1, c));
    DrawEdgeDrawsExactlyOne(b, m, Move(Vertical, r, c));
    DrawEdgeDrawsExactlyOne(b, m, Move(Vertical, r, c + 1));
  }

  // ---------------------------------------------------------------------
  // Claiming
  // ---------------------------------------------------------------------

  /** `Box_Claim`: records `p` as the owner of box (row, col); a box off the
      board is ignored. */
  function Claim(b: Board, row: int, col: int, p: int): (d: Board)
    requires WellFormed(b)
    ensures WellFormed(d) && d.rows == b.rows && d.cols == b.cols && d.h == b.h && d.v == b.v
    ensures !BoxInRange(b, row, col) ==> d == b
    ensures BoxInRange(b, row, col) ==> OwnerOf(d, row, col) == p
  {
    if row < 0 || row >= b.rows || col < 0 || col >= b.cols then b
    else
      BoxIndexInRange(b.rows, b.cols, row, col);
      b.(owners := b.owners[BoxIndex(b.cols, row, col) := p])
  }

  /** Claiming a box leaves the owner of every other box alone. */
  lemma ClaimTouchesOneBox(b: Board, row: int, col: int, p: int, r: int, c: int)
    requires WellFormed(b) && BoxInRange(b, r, c)
    ensures (r, c) != (row, col) ==> OwnerOf(Claim(b, row, col, p), r, c) == OwnerOf(b, r, c)
  {
    if BoxInRange(b, row, col) {
      BoxIndexInjective(b.cols, r, c, row, col);
      BoxIndexInRange(b.rows, b.cols, r, c);
      BoxIndexInRange(b.rows, b.cols, row, col);
    }
  }

  /** The box can be claimed: nobody owns it and it is complete. */
  predicate Claimable(b: Board, row: int, col: int)
    requires WellFormed(b) && BoxInRange(b, row, col)
  {
    OwnerOf(b, row, col) == Unowned && IsComplete(b, row, col)
  }

  /** One block of the claim functions: claim the box if it is claimable and
      count it. */
  function ClaimStep(b: Board, row: int, col: int, p: int): (res: (Board, int))
    requires WellFormed(b) && BoxInRange(b, row, col)
    ensures WellFormed(res.0) && res.0.rows == b.rows && res.0.cols == b.cols
    ensures res.0.h == b.h && res.0.v == b.v
  {
    if Claimable(b, row, col) then (Claim(b, row, col, p), 1)
    else (b, 0)
  }

  /** `Box_CheckAndClaimAfterHorizontal`: examines the box above the edge (when
      there is one) and then the box below it (when there is one). */
  function ClaimAfterHorizontal(b: Board, er: int, ec: int, p: int): (res: (Board, int))
    requires WellFormed(b) && 0 <= er <= b.rows && 0 <= ec < b.cols
    ensures WellFormed(res.0) && res.0.rows == b.rows && res.0.cols == b.cols
    ensures res.0.h == b.h && res.0.v == b.v
  {
    var (b1, n1) := if er > 0 then ClaimStep(b, er - 1, ec, p) else (b, 0);
    var (b2, n2) := if er < b.rows then ClaimStep(b1, er, ec, p) else (b1, 0);
    (b2, n1 + n2)
  }

  /** `Box_CheckAndClaimAfterVertical`: examines the box left of the edge (when
      there is one) and then the box right of it (when there is one). */
  function ClaimAfterVertical(b: Board, er: int, ec: int, p: int): (res: (Board, int))
    requires WellFormed(b) && 0 <= er < b.rows && 0 <= ec <= b.cols
    ensures WellFormed(res.0) && res.0.rows == b.rows && res.0.cols == b.cols
    ensures res.0.h == b.h && res.0.v == b.v
  {
    var (b1, n1) := if ec > 0 then ClaimStep(b, er, ec - 1, p) else (b, 0);
    var (b2, n2) := if ec < b.cols then ClaimStep(b1, er, ec, p) else (b1, 0);
    (b2, n1 + n2)
  }

  /** The claim function that matches the edge's orientation. */
  function ClaimAfter(b: Board, m: Move, p: int): (res: (Board, int))
    requires WellFormed(b) && InBounds(b, m)
    ensures WellFormed(res.0) && res.0.rows == b.rows && res.0.cols == b.cols
    ensures res.0.h == b.h && res.0.v == b.v
  {
    if m.kind == Horizontal then ClaimAfterHorizontal(b, m.r, m.c, p)
    else ClaimAfterVertical(b, m.r, m.c, p)
  }

  /** How many boxes beside the edge are claimable on board `b`. */
  function ClaimableBeside(b: Board, m: Move): (n: int)
    requires WellFormed(b) && InBounds(b, m)
    ensures 0 <= n <= 2
  {
    var (r1, c1) := BoxBefore(m);
    var (r2, c2) := BoxAfter(m);
    (if HasBoxBefore(m) && Claimable(b, r1, c1) then 1 else 0) +
    (if HasBoxAfter(b, m) && Claimable(b, r2, c2) then 1 else 0)
  }

  /** What a claim after edge `m` does: the count is the number of boxes
      beside the edge that were claimable beforehand (so 0, 1 or 2), each of
      those boxes now belongs to `p`, and every other box keeps its owner. */
  lemma ClaimAfterSpec(b: Board, m: Move, p: int)
    requires WellFormed(b) && InBounds(b, m)
    ensures ClaimAfter(b, m, p).1 == ClaimableBeside(b, m)
    ensures forall r, c :: BoxInRange(b, r, c) ==>
      OwnerOf(ClaimAfter(b, m, p).0, r, c) ==
        if Adjacent(m, r, c) && Claimable(b, r, c) then p else OwnerOf(b, r, c)
  {
    var (r1, c1) := BoxBefore(m);
    var (r2, c2) := BoxAfter(m);
    var has1 := HasBoxBefore(m);
    var has2 := HasBoxAfter(b, m);
    var (b1, n1) := if has1 then ClaimStep(b, r1, c1, p) else (b, 0);
    var (b2, n2) := if has2 then ClaimStep(b1, r2, c2, p) else (b1, 0);
    assert ClaimAfter(b, m, p) == (b2, n1 + n2);
    assert (r1, c1) != (r2, c2);
    if has2 {
      ClaimTouchesOneBox(b, r1, c1, p, r2, c2);
      assert Claimable(b1, r2, c2) == Claimable(b, r2, c2);
    }
    forall r, c | BoxInRange(b, r, c)
      ensures OwnerOf(b2, r, c) ==
        if Adjacent(m, r, c) && Claimable(b, r, c) then p else OwnerOf(b, r, c)
    {
      ClaimTouchesOneBox(b, r1, c1, p, r, c);
      ClaimTouchesOneBox(b1, r2, c2, p, r, c);
      if (r, c) == (r1, c1) {
        assert has1;
        ClaimTouchesOneBox(b1, r2, c2, p, r1, c1);
      }
    }
  }

  // ---------------------------------------------------------------------
  // Which owner slots a claim changes
  // ---------------------------------------------------------------------

  /** The owner slots in which two owner arrays differ. */
  function ChangedSlots(o1: seq<int>, o2: seq<int>): set<int>
    requires |o1| == |o2|
  {
    set i | 0 <= i < |o1| && o1[i] != o2[i]
  }

  /** The slots changed by two steps in a row, when the steps touch disjoint
      slots, are the slots changed by either step. */
  lemma ChangedSlotsCompose(o0: seq<int>, o1: seq<int>, o2: seq<int>)
    requires |o0| == |o1| == |o2|
    requires ChangedSlots(o0, o1) !! ChangedSlots(o1, o2)
    ensures ChangedSlots(o0, o2) == ChangedSlots(o0, o1) + ChangedSlots(o1, o2)
  {
  }

  /** A claim step changes only the slot of its box, and that one exactly
      when it counts the box. */
  lemma ClaimStepChanges(b: Board, row: int, col: int, p: int)
    requires WellFormed(b) && BoxInRange(b, row, col) && p != Unowned
    ensures ChangedSlots(b.owners, ClaimStep(b, row, col, p).0.owners) ==
      if ClaimStep(b, row, col, p).1 == 1 then {BoxIndex(b.cols, row, col)} else {}
  {
    var (d, n) := ClaimStep(b, row, col, p);
    var k := BoxIndex(b.cols, row, col);
    BoxIndexInRange(b.rows, b.cols, row, col);
    if n == 1 {
      assert d.owners == b.owners[k := p];
      assert k in ChangedSlots(b.owners, d.owners);
    } else {
      assert d.owners == b.owners;
    }
  }

  /** A claim step that may be skipped changes at most the slot of its box,
      each changed slot going from unowned to `p`, and its count is the number
      of slots it changed. */
  lemma MaybeClaimStepChanges(b: Board, has: bool, row: int, col: int, p: int)
    requires WellFormed(b) && p != Unowned && (has ==> BoxInRange(b, row, col))
    ensures var (d, n) := if has then ClaimStep(b, row, col, p) else (b, 0);
      |d.owners| == |b.owners| &&
      n == |ChangedSlots(b.owners, d.owners)| &&
      (forall i :: i in ChangedSlots(b.owners, d.owners) ==>
        has && i == BoxIndex(b.cols, row, col) && b.owners[i] == Unowned && d.owners[i] == p)
  {
    if has {
      ClaimStepChanges(b, row, col, p);
      var (d, n) := ClaimStep(b, row, col, p);
      if n == 1 {
        BoxIndexInRange(b.rows, b.cols, row, col);
        assert d.owners == b.owners[BoxIndex(b.cols, row, col) := p];
      }
    } else {
      assert ChangedSlots(b.owners, b.owners) == {};
    }
  }

  /** The count a claim returns is the number of owner slots it changed
      (each from unowned to `p`). */
  lemma ClaimCountIsChangedSlots(b: Board, m: Move, p: int)
    requires WellFormed(b) && InBounds(b, m) && p != Unowned
    ensures ClaimAfter(b, m, p).1 == |ChangedSlots(b.owners, ClaimAfter(b, m, p).0.owners)|
    ensures forall i :: i in ChangedSlots(b.owners, ClaimAfter(b, m, p).0.owners) ==>
      b.owners[i] == Unowned && ClaimAfter(b, m, p).0.owners[i] == p
  {
    var (r1, c1) := BoxBefore(m);
    var (r2, c2) := BoxAfter(m);
    var has1 := HasBoxBefore(m);
    var has2 := HasBoxAfter(b, m);
    var (b1, n1) := if has1 then ClaimStep(b, r1, c1, p) else (b, 0);
    var (b2, n2) := if has2 then ClaimStep(b1, r2, c2, p) else (b1, 0);
    assert ClaimAfter(b, m, p) == (b2, n1 + n2);
    MaybeClaimStepChanges(b, has1, r1, c1, p);
    MaybeClaimStepChanges(b1, has2, r2, c2, p);
    var s1 := ChangedSlots(b.owners, b1.owners);
    var s2 := ChangedSlots(b1.owners, b2.owners);
    if has1 && has2 {
      BoxIndexInjective(b.cols, r1, c1, r2, c2);
    }
    assert s1 !! s2;
    ChangedSlotsCompose(b.owners, b1.owners, b2.owners);
    assert |s1 + s2| == |s1| + |s2|;
    forall i | i in ChangedSlots(b.owners, b2.owners)
      ensures b.owners[i] == Unowned && b2.owners[i] == p
    {
      if i in s1 {
        assert i !in s2;
      } else {
        assert i in s2;
      }
    }
  }

  // ---------------------------------------------------------------------
  // Counting owned boxes
  // ---------------------------------------------------------------------

  /** Number of owner slots holding `p`. */
  function CountOwned(o: seq<int>, p: int): (n: nat)
    ensures n <= |o|
  {
    if |o| == 0 then 0 else CountOwned(o[..|o| - 1], p) + (if o[|o| - 1] == p then 1 else 0)
  }

  /** Giving an unowned slot to `p` adds one to p's count and leaves every
      other player's count alone. */
  lemma {:induction false} CountOwnedUpdate(o: seq<int>, k: int, p: int, q: int)
    requires 0 <= k < |o| && o[k] == Unowned && q != Unowned
    ensures CountOwned(o[k := p], q) == CountOwned(o, q) + (if p == q then 1 else 0)
    decreases |o|
  {
    var n := |o| - 1;
    if k < n {
      assert o[k := p][..n] == o[..n][k := p];
      CountOwnedUpdate(o[..n], k, p, q);
    } else {
      assert o[k := p][..n] == o[..n];
    }
  }

  /** A claim adds its count to the claimer's number of boxes and leaves every
      other player's number of boxes alone. */
  lemma ClaimAfterCounts(b: Board, m: Move, p: int, q: int)
    requires WellFormed(b) && InBounds(b, m) && q != Unowned
    ensures CountOwned(ClaimAfter(b, m, p).0.owners, q) ==
      CountOwned(b.owners, q) + (if p == q then ClaimAfter(b, m, p).1 else 0)
  {
    var (r1, c1) := BoxBefore(m);
    var (r2, c2) := BoxAfter(m);
    var has1 := HasBoxBefore(m);
    var has2 := HasBoxAfter(b, m);
    var (b1, n1) := if has1 then ClaimStep(b, r1, c1, p) else (b, 0);
    var (b2, n2) := if has2 then ClaimStep(b1, r2, c2, p) else (b1, 0);
    assert ClaimAfter(b, m, p) == (b2, n1 + n2);
    if has1 && n1 == 1 {
      BoxIndexInRange(b.rows, b.cols, r1, c1);
      CountOwnedUpdate(b.owners, BoxIndex(b.cols, r1, c1), p, q);
    }
    if has2 && n2 == 1 {
      BoxIndexInRange(b.rows, b.cols, r2, c2);
      CountOwnedUpdate(b1.owners, BoxIndex(b.cols, r2, c2), p, q);
    }
  }

  // ---------------------------------------------------------------------
  // The grid operations
  // ---------------------------------------------------------------------

  /** `Box_Claim` on a grid. */
  method BoxClaim(g: Grid, row: int, col: int, p: int)
    requires g.Valid()
    modifies g.owners
    ensures g.Model() == Claim(old(g.Model()), row, col, p)
  {
    if row < 0 || row >= g.rows || col < 0 || col >= g.cols {
      return;
    }
    BoxIndexInRange(g.rows, g.cols, row, col);
    g.owners[BoxIndex(g.cols, row, col)] := p;
  }

  /** One block of the claim functions on a grid: claims box (row, col) for
      `p` if it is unowned and complete, and returns 1 if it did. */
  method ClaimIfComplete(g: Grid, row: int, col: int, p: int) returns (claimed: int)
    requires g.Valid() && BoxInRange(g.Model(), row, col)
    modifies g.owners
    ensures (g.Model(), claimed) == ClaimStep(old(g.Model()), row, col, p)
  {
    BoxIndexInRange(g.rows, g.cols, row, col);
    if g.owners[BoxIndex(g.cols, row, col)] == Unowned && IsComplete(g.Model(), row, col) {
      BoxClaim(g, row, col, p);
      return 1;
    }
    return 0;
  }

  /** `Box_CheckAndClaimAfterHorizontal` on a grid: updates the owners and
      returns the number of boxes claimed. */
  method CheckAndClaimAfterHorizontal(g: Grid, er: int, ec: int, p: int) returns (claimed: int)
    requires g.Valid() && 0 <= er <= g.rows && 0 <= ec < g.cols
    modifies g.owners
    ensures (g.Model(), claimed) == ClaimAfterHorizontal(old(g.Model()), er, ec, p)
  {
    ghost var b := g.Model();
    claimed := 0;
    if er > 0 {
      var n := ClaimIfComplete(g, er - 1, ec, p);
      claimed := claimed + n;
    }
    assert (g.Model(), claimed) == (if er > 0 then ClaimStep(b, er - 1, ec, p) else (b, 0));
    if er < g.rows {
      var n := ClaimIfComplete(g, er, ec, p);
      claimed := claimed + n;
    }
  }

  /** `Box_CheckAndClaimAfterVertical` on a grid: updates the owners and
      returns the number of boxes claimed. */
  method CheckAndClaimAfterVertical(g: Grid, er: int, ec: int, p: int) returns (claimed: int)
    requires g.Valid() && 0 <= er < g.rows && 0 <= ec <= g.cols
    modifies g.owners
    ensures (g.Model(), claimed) == ClaimAfterVertical(old(g.Model()), er, ec, p)
  {
    ghost var b := g.Model();
    claimed := 0;
    if ec > 0 {
      var n := ClaimIfComplete(g, er, ec - 1, p);
      claimed := claimed + n;
    }
    assert (g.Model(), claimed) == (if ec > 0 then ClaimStep(b, er, ec - 1, p) else (b, 0));
    if ec < g.cols {
      var n := ClaimIfComplete(g, er, ec, p);
      claimed := claimed + n;
    }
  }
}
