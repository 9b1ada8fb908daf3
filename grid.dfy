/** The edge grid of a Dots-and-Boxes board: `rows` x `cols` boxes, the
    horizontal and vertical edges between the dots, and the owner of each box,
    all stored in flat row-major arrays. */
module Grids {

  /** The two edge arrays an edge can live in (the AI's `type` 0 and 1). */
  datatype Orientation = Horizontal | Vertical

  /** One edge of the board: its orientation, its row and its column. */
  datatype Move = Move(kind: Orientation, r: int, c: int)

  /** The value held by a grid: the box counts and the contents of the three
      arrays `h_edges`, `v_edges` and `owners`. */
  datatype Board = Board(rows: int, cols: int, h: seq<bool>, v: seq<bool>, owners: seq<int>)

  /** The owner value of a box that nobody has claimed yet. */
  const Unowned: int := -1

  /** Number of rows of edges of one orientation: rows + 1 of horizontal
      edges, rows of vertical ones. */
  function Height(rows: int, kind: Orientation): int {
    if kind == Horizontal then rows + 1 else rows
  }

  /** Number of edges in one row of edges: cols horizontal ones, cols + 1
      vertical ones. */
  function Width(cols: int, kind: Orientation): int {
    if kind == Horizontal then cols else cols + 1
  }

  /** Total number of edges of a board. */
  function NumEdges(rows: int, cols: int): int {
    (rows + 1) * cols + rows * (cols + 1)
  }

  /** The three arrays have the sizes the grid's box counts give them. */
  predicate WellFormed(b: Board) {
    0 <= b.rows && 0 <= b.cols &&
    |b.h| == (b.rows + 1) * b.cols &&
    |b.v| == b.rows * (b.cols + 1) &&
    |b.owners| == b.rows * b.cols
  }

  // ---------------------------------------------------------------------
  // Index arithmetic
  // ---------------------------------------------------------------------

  /** Slot of horizontal edge (r, c) in `h_edges`. */
  function IndexH(cols: int, r: int, c: int): int {
    r * cols + c
  }

  /** Slot of vertical edge (r, c) in `v_edges`. */
  function IndexV(cols: int, r: int, c: int): int {
    r * (cols + 1) + c
  }

  /** Slot of box (r, c) in `owners`. */
  function BoxIndex(cols: int, r: int, c: int): int {
    r * cols + c
  }

  /** (a + 1) * w, multiplied out. */
  lemma MulSucc(a: int, w: int)
    ensures (a + 1) * w == a * w + w
  {
  }

  /** Multiplying by a non-negative factor keeps the order of the other one. */
  lemma MulMonotone(a: int, b: int, w: int)
    requires 0 <= w
    ensures a <= b ==> a * w <= b * w
  {
    if a <= b {
      assert b * w == a * w + (b - a) * w;
      assert 0 <= (b - a) * w;
    }
  }

  /** A strict order between multiples of a positive factor is an order of
      the other factors. */
  lemma MulCancelLess(a: int, b: int, w: int)
    requires 0 < w && a * w < b * w
    ensures a < b
  {
    MulMonotone(b, a, w);
  }

  /** A row-major slot of a `height` x `width` table lies inside the table. */
  lemma SlotInRange(height: int, width: int, r: int, c: int)
    requires 0 <= r < height && 0 <= c < width
    ensures 0 <= r * width + c < height * width
  {
    MulMonotone(0, r, width);
    MulSucc(r, width);
    MulMonotone(r + 1, height, width);
  }

  /** Distinct cells of a table of `width` columns have distinct row-major slots. */
  lemma SlotInjective(width: int, r1: int, c1: int, r2: int, c2: int)
    requires 0 <= c1 < width && 0 <= c2 < width
    ensures r1 * width + c1 == r2 * width + c2 ==> r1 == r2 && c1 == c2
  {
    if r1 * width + c1 == r2 * width + c2 {
      MulSucc(r1, width);
      MulSucc(r2, width);
      MulCancelLess(r1, r2 + 1, width);
      MulCancelLess(r2, r1 + 1, width);
    }
  }

  /** A slot inside a table comes from exactly one cell: its row and column. */
  lemma SlotCell(height: int, width: int, i: int)
    requires 0 <= height && 0 <= width && 0 <= i < height * width
    ensures 0 < width
    ensures 0 <= i / width < height && 0 <= i % width < width
    ensures i == (i / width) * width + i % width
  {
    assert width != 0;
    var r := i / width;
    assert i == r * width + i % width && 0 <= i % width < width;
    MulMonotone(r, -1, width);
    MulCancelLess(r, height, width);
  }

  /** Every horizontal edge of the board has a slot inside `h_edges`. */
  lemma IndexHInRange(rows: int, cols: int, r: int, c: int)
    requires 0 <= r <= rows && 0 <= c < cols
    ensures 0 <= IndexH(cols, r, c) < (rows + 1) * cols
  {
    SlotInRange(rows + 1, cols, r, c);
  }

  /** Distinct horizontal edges have distinct slots. */
  lemma IndexHInjective(cols: int, r1: int, c1: int, r2: int, c2: int)
    requires 0 <= c1 < cols && 0 <= c2 < cols
    ensures IndexH(cols, r1, c1) == IndexH(cols, r2, c2) ==> r1 == r2 && c1 == c2
  {
    SlotInjective(cols, r1, c1, r2, c2);
  }

  /** Every vertical edge of the board has a slot inside `v_edges`. */
  lemma IndexVInRange(rows: int, cols: int, r: int, c: int)
    requires 0 <= r < rows && 0 <= c <= cols
    ensures 0 <= IndexV(cols, r, c) < rows * (cols + 1)
  {
    SlotInRange(rows, cols + 1, r, c);
  }

  /** Distinct vertical edges have distinct slots. */
  lemma IndexVInjective(cols: int, r1: int, c1: int, r2: int, c2: int)
    requires 0 <= c1 <= cols && 0 <= c2 <= cols
    ensures IndexV(cols, r1, c1) == IndexV(cols, r2, c2) ==> r1 == r2 && c1 == c2
  {
    SlotInjective(cols + 1, r1, c1, r2, c2);
  }

  /** Every box of the board has a slot inside `owners`. */
  lemma BoxIndexInRange(rows: int, cols: int, r: int, c: int)
    requires 0 <= r < rows && 0 <= c < cols
    ensures 0 <= BoxIndex(cols, r, c) < rows * cols
  {
    SlotInRange(rows, cols, r, c);
  }

  /** Distinct boxes have distinct owner slots. */
  lemma BoxIndexInjective(cols: int, r1: int, c1: int, r2: int, c2: int)
    requires 0 <= c1 < cols && 0 <= c2 < cols
    ensures BoxIndex(cols, r1, c1) == BoxIndex(cols, r2, c2) ==> r1 == r2 && c1 == c2
  {
    SlotInjective(cols, r1, c1, r2, c2);
  }

  // ---------------------------------------------------------------------
  // Edges
  // ---------------------------------------------------------------------

  /** The edge exists on this board. */
  predicate InBounds(b: Board, m: Move) {
    0 <= m.r < Height(b.rows, m.kind) && 0 <= m.c < Width(b.cols, m.kind)
  }

  /** The edge has been drawn. */
  predicate Drawn(b: Board, m: Move)
    requires WellFormed(b) && InBounds(b, m)
  {
    match m.kind
    case Horizontal =>
      IndexHInRange(b.rows, b.cols, m.r, m.c);
      b.h[IndexH(b.cols, m.r, m.c)]
    case Vertical =>
      IndexVInRange(b.rows, b.cols, m.r, m.c);
      b.v[IndexV(b.cols, m.r, m.c)]
  }

  /** The board after the edge's slot is set to true. */
  function DrawEdge(b: Board, m: Move): (d: Board)
    requires WellFormed(b) && InBounds(b, m)
    ensures WellFormed(d) && d.rows == b.rows && d.cols == b.cols && d.owners == b.owners
    ensures Drawn(d, m)
  {
    match m.kind
    case Horizontal =>
      IndexHInRange(b.rows, b.cols, m.r, m.c);
      b.(h := b.h[IndexH(b.cols, m.r, m.c) := true])
    case Vertical =>
      IndexVInRange(b.rows, b.cols, m.r, m.c);
      b.(v := b.v[IndexV(b.cols, m.r, m.c) := true])
  }

  /** Drawing an edge draws that edge and no other: every other edge keeps
      its state, so edges only ever go from undrawn to drawn. */
  lemma DrawEdgeDrawsExactlyOne(b: Board, m: Move, e: Move)
    requires WellFormed(b) && InBounds(b, m) && InBounds(b, e)
    ensures Drawn(DrawEdge(b, m), e) <==> Drawn(b, e) || e == m
  {
    var d := DrawEdge(b, m);
    if e.kind == Horizontal {
      var i := IndexH(b.cols, e.r, e.c);
      IndexHInRange(b.rows, b.cols, e.r, e.c);
      if m.kind == Horizontal {
        var j := IndexH(b.cols, m.r, m.c);
        IndexHInRange(b.rows, b.cols, m.r, m.c);
        assert d.h == b.h[j := true];
        IndexHInjective(b.cols, e.r, e.c, m.r, m.c);
      } else {
        assert d.h == b.h;
      }
    } else {
      var i := IndexV(b.cols, e.r, e.c);
      IndexVInRange(b.rows, b.cols, e.r, e.c);
      if m.kind == Vertical {
        var j := IndexV(b.cols, m.r, m.c);
        IndexVInRange(b.rows, b.cols, m.r, m.c);
        assert d.v == b.v[j := true];
        IndexVInjective(b.cols, e.r, e.c, m.r, m.c);
      } else {
        assert d.v == b.v;
      }
    }
  }

  /** Drawing an already drawn edge leaves the board as it was; in
      particular drawing the same edge twice is the same as drawing it once. */
  lemma DrawEdgeIdempotent(b: Board, m: Move)
    requires WellFormed(b) && InBounds(b, m)
    ensures Drawn(b, m) ==> DrawEdge(b, m) == b
    ensures DrawEdge(DrawEdge(b, m), m) == DrawEdge(b, m)
  {
  }

  /** A board of the given size with no edge drawn and no box owned. */
  function EmptyBoard(rows: int, cols: int): (b: Board)
    requires 0 <= rows && 0 <= cols
    ensures WellFormed(b) && b.rows == rows && b.cols == cols
  {
    MulMonotone(0, rows + 1, cols);
    MulMonotone(0, rows, cols + 1);
    MulMonotone(0, rows, cols);
    Board(rows, cols,
          seq((rows + 1) * cols, _ => false),
          seq(rows * (cols + 1), _ => false),
          seq(rows * cols, _ => Unowned))
  }

  /** A fresh board has every edge undrawn and every box unowned. */
  lemma EmptyBoardIsBlank(rows: int, cols: int, e: Move)
    requires 0 <= rows && 0 <= cols && InBounds(EmptyBoard(rows, cols), e)
    ensures !Drawn(EmptyBoard(rows, cols), e)
    ensures forall i :: 0 <= i < rows * cols ==> EmptyBoard(rows, cols).owners[i] == Unowned
  {
    var b := EmptyBoard(rows, cols);
    if e.kind == Horizontal {
      IndexHInRange(rows, cols, e.r, e.c);
      assert b.h[IndexH(cols, e.r, e.c)] == false;
    } else {
      IndexVInRange(rows, cols, e.r, e.c);
      assert b.v[IndexV(cols, e.r, e.c)] == false;
    }
  }

  /** `Grid_claimed_box` as written: it tests the bottom edge twice and never
      the top one, so it answers 1 exactly when the bottom, left and right
      edges of box (r, c) are drawn. */
  function ClaimedBox(b: Board, r: int, c: int): (n: int)
    requires WellFormed(b) && 0 <= r < b.rows && 0 <= c < b.cols
    ensures n == 0 || n == 1
    ensures n == 1 <==>
      Drawn(b, Move(Horizontal, r + 1, c)) &&
      Drawn(b, Move(Vertical, r, c)) && Drawn(b, Move(Vertical, r, c + 1))
  {
    var bottom := Move(Horizontal, r + 1, c);
    if Drawn(b, bottom) && Drawn(b, bottom) &&
       Drawn(b, Move(Vertical, r, c)) && Drawn(b, Move(Vertical, r, c + 1))
    then 1 else 0
  }

  // ---------------------------------------------------------------------
  // The grid object
  // ---------------------------------------------------------------------

  /** A grid whose three arrays are updated in place. */
  class Grid {
    var rows: int
    var cols: int
    var hEdges: array<bool>
    var vEdges: array<bool>
    var owners: array<int>

    /** The arrays have the sizes the box counts give them. */
    ghost predicate Valid()
      reads this
    {
      0 <= rows && 0 <= cols &&
      hEdges.Length == (rows + 1) * cols &&
      vEdges.Length == rows * (cols + 1) &&
      owners.Length == rows * cols &&
      hEdges != vEdges
    }

    /** The value the grid currently holds. */
    function Model(): (b: Board)
      reads this, hEdges, vEdges, owners
      ensures Valid() ==> WellFormed(b)
      ensures b.rows == rows && b.cols == cols
    {
      Board(rows, cols, hEdges[..], vEdges[..], owners[..])
    }

    /** A zero-sized grid, as in a zero-initialised `Game`. */
    constructor ()
      ensures Valid() && Model() == EmptyBoard(0, 0)
      ensures fresh(hEdges) && fresh(vEdges) && fresh(owners)
    {
      rows, cols := 0, 0;
      hEdges := new bool[0];
      vEdges := new bool[0];
      owners := new int[0];
    }
  }

  /** `Grid_Init`: gives the grid fresh arrays for `rows` x `cols` boxes, every
      edge undrawn (calloc) and every owner unowned (the loop over the owners). */
  method Init(g: Grid, rows: int, cols: int)
    requires 0 <= rows && 0 <= cols
    modifies g
    ensures g.Valid() && g.Model() == EmptyBoard(rows, cols)
    ensures fresh(g.hEdges) && fresh(g.vEdges) && fresh(g.owners)
  {
    MulMonotone(0, rows + 1, cols);
    MulMonotone(0, rows, cols + 1);
    MulMonotone(0, rows, cols);
    g.rows := rows;
    g.cols := cols;
    g.hEdges := new bool[(rows + 1) * cols](_ => false);
    g.vEdges := new bool[rows * (cols + 1)](_ => false);
    g.owners := new int[rows * cols];
    for i := 0 to rows * cols
      modifies g.owners
      invariant forall j :: 0 <= j < i ==> g.owners[j] == Unowned
    {
      g.owners[i] := Unowned;
    }
  }

  /** `Grid_set_horizontal`: draws horizontal edge (r, c) if it is undrawn and
      says whether it did; an already drawn edge is left alone. */
  method SetHorizontal(g: Grid, r: int, c: int) returns (drawn: bool)
    requires g.Valid() && 0 <= r <= g.rows && 0 <= c < g.cols
    modifies g.hEdges
    ensures drawn == !Drawn(old(g.Model()), Move(Horizontal, r, c))
    ensures g.Model() == DrawEdge(old(g.Model()), Move(Horizontal, r, c))
  {
    var ind := IndexH(g.cols, r, c);
    IndexHInRange(g.rows, g.cols, r, c);
    if g.hEdges[ind] {
      return false;
    }
    g.hEdges[ind] := true;
    return true;
  }

  /** `Grid_set_vertical`: the same on the vertical edge (r, c). */
  method SetVertical(g: Grid, r: int, c: int) returns (drawn: bool)
    requires g.Valid() && 0 <= r < g.rows && 0 <= c <= g.cols
    modifies g.vEdges
    ensures drawn == !Drawn(old(g.Model()), Move(Vertical, r, c))
    ensures g.Model() == DrawEdge(old(g.Model()), Move(Vertical, r, c))
  {
    var ind := IndexV(g.cols, r, c);
    IndexVInRange(g.rows, g.cols, r, c);
    if g.vEdges[ind] {
      return false;
    }
    g.vEdges[ind] := true;
    return true;
  }
}
