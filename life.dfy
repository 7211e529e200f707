/** The Game of Life on a finite board whose edges do not wrap around.
    This module is the reference definition the board's imperative code is
    proved against: the neighbour count, Conway's rule and one generation. */
module Life {

  /** A board: the outer sequence is indexed by row, each inner one by column. */
  type Grid = seq<seq<bool>>

  /** Every row has the length of the first (the game only builds square boards). */
  predicate Rectangular(g: Grid) {
    forall r :: 0 <= r < |g| ==> |g[r]| == |g[0]|
  }

  /** Same number of rows, and each row has the same length in both. */
  predicate SameShape(a: Grid, b: Grid) {
    |a| == |b| && forall r :: 0 <= r < |a| ==> |a[r]| == |b[r]|
  }

  predicate InGrid(g: Grid, r: int, c: int) {
    0 <= r < |g| && 0 <= c < |g[r]|
  }

  predicate AllDead(g: Grid) {
    forall r, c :: 0 <= r < |g| && 0 <= c < |g[r]| ==> !g[r][c]
  }

  /** 1 for a live cell on the board; every position off the board reads as dead. */
  function Live(g: Grid, r: int, c: int): nat {
    if InGrid(g, r, c) && g[r][c] then 1 else 0
  }

  /** The number of live cells among the eight cells around (r, c). */
  function LiveNeighbours(g: Grid, r: int, c: int): nat {
    Live(g, r - 1, c - 1) + Live(g, r - 1, c) + Live(g, r - 1, c + 1) +
    Live(g, r, c - 1) + Live(g, r, c + 1) +
    Live(g, r + 1, c - 1) + Live(g, r + 1, c) + Live(g, r + 1, c + 1)
  }

  /** Conway's rule B3/S23: is a cell with n live neighbours alive next generation? */
  predicate Survives(alive: bool, n: nat) {
    if alive then n == 2 || n == 3 else n == 3
  }

  /** The board's own shortened rule: does a cell with n live neighbours change state? */
  predicate Flips(alive: bool, n: nat) {
    (alive && !(2 <= n <= 3)) || (!alive && n == 3)
  }

  /** Whether the cell at (r, c) is on the board and changes state next generation. */
  predicate FlipsAt(g: Grid, r: int, c: int) {
    InGrid(g, r, c) && Flips(g[r][c], LiveNeighbours(g, r, c))
  }

  /** One generation, every cell computed from the same (previous) board. */
  function Next(g: Grid): (r: Grid)
    ensures SameShape(r, g)
  {
    seq(|g|, i requires 0 <= i < |g| =>
      seq(|g[i]|, j requires 0 <= j < |g[i]| => Survives(g[i][j], LiveNeighbours(g, i, j))))
  }

  /** Two boards of the same shape that agree on every cell are equal. */
  lemma {:induction false} CellwiseEqual(a: Grid, b: Grid)
    requires SameShape(a, b)
    requires forall r, c :: InGrid(a, r, c) ==> a[r][c] == b[r][c]
    ensures a == b
  {
    forall r | 0 <= r < |a| ensures a[r] == b[r] {
      forall c | 0 <= c < |a[r]| ensures a[r][c] == b[r][c] {
        assert InGrid(a, r, c);
      }
    }
  }

  /** Boards of the same shape are rectangular alike. */
  lemma SameShapeRectangular(a: Grid, b: Grid)
    requires SameShape(a, b)
    ensures Rectangular(a) <==> Rectangular(b)
  {
  }

  /** One cell of the next generation, given its neighbour count. */
  lemma NextCell(g: Grid, r: int, c: int, n: nat)
    requires InGrid(g, r, c) && LiveNeighbours(g, r, c) == n
    ensures Next(g)[r][c] == Survives(g[r][c], n)
  {
  }

  /** The flip rule and Conway's rule agree: a cell flips exactly when its next
      state differs from its current one. */
  lemma FlipsIffChanges(alive: bool, n: nat)
    ensures Flips(alive, n) <==> (alive != Survives(alive, n))
  {
  }

  /** Any two counts above 3 lead to the same decision, which is what allows the
      neighbour count to stop early once it passes 3. */
  lemma FlipsSaturates(alive: bool, n: nat, m: nat)
    requires n > 3 && m > 3
    ensures Flips(alive, n) == Flips(alive, m)
  {
  }

  /** Each cell of the next generation is the old cell, flipped when the rule says so. */
  lemma NextIsFlipOf(g: Grid, r: int, c: int)
    requires InGrid(g, r, c)
    ensures Next(g)[r][c] == (g[r][c] != FlipsAt(g, r, c))
  {
  }

  lemma NextFlipsEveryCell(g: Grid)
    ensures forall r, c :: InGrid(g, r, c) ==> Next(g)[r][c] == (g[r][c] != FlipsAt(g, r, c))
  {
    forall r, c | InGrid(g, r, c) ensures Next(g)[r][c] == (g[r][c] != FlipsAt(g, r, c)) {
      NextIsFlipOf(g, r, c);
    }
  }

  /** Edges truncate: a cell never counts more neighbours than lie on the board;
      a corner of a board at least 2 by 2 has three, an edge cell five. */
  lemma NeighbourBound(g: Grid, r: int, c: int)
    requires Rectangular(g) && InGrid(g, r, c)
    ensures LiveNeighbours(g, r, c) <= 8
    ensures (r == 0 || r == |g| - 1) && (c == 0 || c == |g[r]| - 1) ==> LiveNeighbours(g, r, c) <= 3
    ensures (r == 0 || r == |g| - 1 || c == 0 || c == |g[r]| - 1) ==> LiveNeighbours(g, r, c) <= 5
  {
  }

  /** A board with no live cell stays empty: a dead cell needs exactly 3 live neighbours. */
  lemma {:induction false} AllDeadIsFixed(g: Grid)
    requires AllDead(g)
    ensures Next(g) == g
  {
    forall r, c | InGrid(g, r, c) ensures Next(g)[r][c] == g[r][c] {
      assert LiveNeighbours(g, r, c) == 0;
    }
    CellwiseEqual(Next(g), g);
  }

  /** A live cell whose eight neighbours are all dead dies. */
  lemma LoneCellDies(g: Grid, r: int, c: int)
    requires InGrid(g, r, c) && g[r][c] && LiveNeighbours(g, r, c) == 0
    ensures !Next(g)[r][c]
  {
  }

  /** On a board of one row no cell is ever born (it has at most two neighbours). */
  lemma SingleRowHasNoBirths(g: Grid, c: int)
    requires |g| == 1 && 0 <= c < |g[0]| && !g[0][c]
    ensures !Next(g)[0][c]
  {
  }

  /** A board of one row need not die out: the middle of three live cells survives. */
  lemma SingleRowCanSurvive(g: Grid)
    requires g == [[true, true, true]]
    ensures Next(g) == [[false, true, false]]
  {
    NextCell(g, 0, 0, 1);
    NextCell(g, 0, 1, 2);
    NextCell(g, 0, 2, 1);
    CellwiseEqual(Next(g), [[false, true, false]]);
  }


  /** The blinker oscillates with period 2, on any board of at least 3 by 3
      whose other cells are all dead: the three live cells of row 1 ... */
  lemma BlinkerTurns(g: Grid)
    requires |g| >= 3 && Rectangular(g) && |g[0]| >= 3
    requires forall r, c :: InGrid(g, r, c) ==> g[r][c] == (r == 1 && c <= 2)
    ensures forall r, c :: InGrid(g, r, c) ==> Next(g)[r][c] == (c == 1 && r <= 2)
  {
    forall r, c | InGrid(g, r, c) ensures Next(g)[r][c] == (c == 1 && r <= 2) {
      NextCell(g, r, c, LiveNeighbours(g, r, c));
    }
  }

  /** ... become the three live cells of column 1, and back again. */
  lemma BlinkerTurnsBack(g: Grid)
    requires |g| >= 3 && Rectangular(g) && |g[0]| >= 3
    requires forall r, c :: InGrid(g, r, c) ==> g[r][c] == (c == 1 && r <= 2)
    ensures forall r, c :: InGrid(g, r, c) ==> Next(g)[r][c] == (r == 1 && c <= 2)
  {
    forall r, c | InGrid(g, r, c) ensures Next(g)[r][c] == (r == 1 && c <= 2) {
      NextCell(g, r, c, LiveNeighbours(g, r, c));
    }
  }

  /** A 2 by 2 block with top-left cell (a, b), on a board whose other cells are
      all dead, is a still life. */
  lemma BlockIsStill(g: Grid, a: nat, b: nat)
    requires InGrid(g, a, b) && InGrid(g, a, b + 1) && InGrid(g, a + 1, b) && InGrid(g, a + 1, b + 1)
    requires forall r, c :: InGrid(g, r, c) ==> g[r][c] == (a <= r <= a + 1 && b <= c <= b + 1)
    ensures Next(g) == g
  {
    forall r, c | InGrid(g, r, c) ensures Next(g)[r][c] == g[r][c] {
      BlockCellStays(g, a, b, r, c);
    }
    CellwiseEqual(Next(g), g);
  }

  /** Each cell of the block has 3 live neighbours and survives; each cell
      outside it has at most 2 and stays dead. */
  lemma BlockCellStays(g: Grid, a: nat, b: nat, r: int, c: int)
    requires InGrid(g, a, b) && InGrid(g, a, b + 1) && InGrid(g, a + 1, b) && InGrid(g, a + 1, b + 1)
    requires forall r, c :: InGrid(g, r, c) ==> g[r][c] == (a <= r <= a + 1 && b <= c <= b + 1)
    requires InGrid(g, r, c)
    ensures Next(g)[r][c] == g[r][c]
  {
    if g[r][c] {
      assert LiveNeighbours(g, r, c) == 3;
    } else {
      assert LiveNeighbours(g, r, c) <= 2;
    }
  }
}
