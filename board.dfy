/** The board: a grid of cells updated in place, one generation per tick. */
module Board {
  import opened Life
  import opened Text

  /** A cell position as the board records a pending flip: x is the column, y the row. */
  datatype Point = Point(x: nat, y: nat)

  // The eight neighbour slots in the order the board checks them (i the row,
  // j the column): 0 up-left, 1 left, 2 down-left, 3 down, 4 down-right,
  // 5 right, 6 up-right, 7 up.

  /** The value of neighbour slot k of (i, j). */
  function SlotValue(g: Grid, i: int, j: int, k: nat): nat {
    if k == 0 then Live(g, i - 1, j - 1)
    else if k == 1 then Live(g, i, j - 1)
    else if k == 2 then Live(g, i + 1, j - 1)
    else if k == 3 then Live(g, i + 1, j)
    else if k == 4 then Live(g, i + 1, j + 1)
    else if k == 5 then Live(g, i, j + 1)
    else if k == 6 then Live(g, i - 1, j + 1)
    else Live(g, i - 1, j)
  }

  /** The live neighbours found in the first n slots. */
  function SlotSum(g: Grid, i: int, j: int, n: nat): nat {
    if n == 0 then 0 else SlotSum(g, i, j, n - 1) + SlotValue(g, i, j, n - 1)
  }

  /** Slot k is switched on exactly when its neighbour lies on the board. */
  predicate MaskMatches(g: Grid, i: int, j: int, mask: seq<bool>) {
    |mask| == 8 &&
    mask[0] == InGrid(g, i - 1, j - 1) && mask[1] == InGrid(g, i, j - 1) &&
    mask[2] == InGrid(g, i + 1, j - 1) && mask[3] == InGrid(g, i + 1, j) &&
    mask[4] == InGrid(g, i + 1, j + 1) && mask[5] == InGrid(g, i, j + 1) &&
    mask[6] == InGrid(g, i - 1, j + 1) && mask[7] == InGrid(g, i - 1, j)
  }

  lemma {:induction false} SlotSumGrows(g: Grid, i: int, j: int, n: nat, m: nat)
    requires n <= m
    ensures SlotSum(g, i, j, n) <= SlotSum(g, i, j, m)
    decreases m - n
  {
    if n < m {
      SlotSumGrows(g, i, j, n, m - 1);
    }
  }

  lemma SlotSumIsNeighbourCount(g: Grid, i: int, j: int)
    ensures SlotSum(g, i, j, 8) == LiveNeighbours(g, i, j)
  {
    var n0, n1, n2, n3 := SlotValue(g, i, j, 0), SlotValue(g, i, j, 1), SlotValue(g, i, j, 2), SlotValue(g, i, j, 3);
    var n4, n5, n6, n7 := SlotValue(g, i, j, 4), SlotValue(g, i, j, 5), SlotValue(g, i, j, 6), SlotValue(g, i, j, 7);
    assert SlotSum(g, i, j, 1) == n0;
    assert SlotSum(g, i, j, 2) == n0 + n1;
    assert SlotSum(g, i, j, 3) == n0 + n1 + n2;
    assert SlotSum(g, i, j, 4) == n0 + n1 + n2 + n3;
    assert SlotSum(g, i, j, 5) == n0 + n1 + n2 + n3 + n4;
    assert SlotSum(g, i, j, 6) == n0 + n1 + n2 + n3 + n4 + n5;
    assert SlotSum(g, i, j, 7) == n0 + n1 + n2 + n3 + n4 + n5 + n6;
    assert SlotSum(g, i, j, 8) == n0 + n1 + n2 + n3 + n4 + n5 + n6 + n7;
  }

  lemma {:induction false} SlotSumAtMost(g: Grid, i: int, j: int, n: nat)
    ensures SlotSum(g, i, j, n) <= n
  {
    if n > 0 {
      SlotSumAtMost(g, i, j, n - 1);
    }
  }

  /** What the count tells once it has looked at all eight slots, or has stopped
      early above 3. */
  lemma CountSoFar(g: Grid, i: int, j: int, n: nat, sum: nat)
    requires n <= 8 && sum == SlotSum(g, i, j, n) && (n == 8 || sum > 3)
    ensures sum <= 8
    ensures LiveNeighbours(g, i, j) <= 3 ==> sum == LiveNeighbours(g, i, j)
    ensures LiveNeighbours(g, i, j) > 3 ==> 3 < sum <= LiveNeighbours(g, i, j)
  {
    SlotSumAtMost(g, i, j, n);
    SlotSumGrows(g, i, j, n, 8);
    SlotSumIsNeighbourCount(g, i, j);
  }

  /** A switched-off slot adds nothing: its neighbour is off the board. */
  lemma SlotStep(g: Grid, i: int, j: int, mask: seq<bool>, k: nat)
    requires MaskMatches(g, i, j, mask) && k < 8
    ensures SlotSum(g, i, j, k + 1) == SlotSum(g, i, j, k) + (if mask[k] then SlotValue(g, i, j, k) else 0)
  {
  }

  /** The slots the board leaves switched on are exactly those on a rectangular board. */
  lemma MaskIsOnBoard(g: Grid, i: nat, j: nat, mask: seq<bool>)
    requires Rectangular(g) && i < |g| && j < |g[i]| && |mask| == 8
    requires mask[0] == (i != 0 && j != 0) && mask[1] == (j != 0)
    requires mask[2] == (j != 0 && i != |g| - 1) && mask[3] == (i != |g| - 1)
    requires mask[4] == (i != |g| - 1 && j != |g[i]| - 1) && mask[5] == (j != |g[i]| - 1)
    requires mask[6] == (i != 0 && j != |g[i]| - 1) && mask[7] == (i != 0)
    ensures MaskMatches(g, i, j, mask)
  {
  }

  /** Toggling exactly the cells the rule marks, on a copy of the old board,
      gives the next generation. */
  lemma AppliedFlipsGiveNext(before: Grid, after: Grid, flips: seq<Point>)
    requires SameShape(after, before)
    requires forall r, c :: InGrid(before, r, c) ==> after[r][c] == (before[r][c] != (Point(c, r) in flips))
    requires forall p :: p in flips ==> FlipsAt(before, p.y, p.x)
    requires forall r: nat, c: nat :: FlipsAt(before, r, c) ==> Point(c, r) in flips
    ensures after == Next(before)
  {
    forall r, c | InGrid(before, r, c)
      ensures after[r][c] == Next(before)[r][c]
    {
      NextIsFlipOf(before, r, c);
    }
    CellwiseEqual(after, Next(before));
  }

  class Board {
    var positions: Grid
    /** The number of ticks so far (a 32-bit unsigned counter in the Rust program). */
    var iter: nat

    /** Every row has the same length. */
    predicate Valid()
      reads this
    {
      Rectangular(positions)
    }

    /** A board over the given rows, before its first tick. */
    constructor (v: Grid)
      ensures positions == v && iter == 0
    {
      positions := v;
      iter := 0;
    }

    /** 1 when (i, j) is on the board and alive, 0 otherwise, whatever the indices. */
    function GetValue(i: nat, j: nat): (v: nat)
      reads this
      ensures v <= 1
      ensures v == 1 <==> i < |positions| && j < |positions[i]| && positions[i][j]
    {
      if i < |positions| then
        var row := positions[i];
        if j < |row| then (if row[j] then 1 else 0) else 0
      else 0
    }

    /** The neighbour slots to look at: all eight, less those past an edge. */
    method SquaresToCheck(i: nat, j: nat) returns (squaresToCheck: seq<bool>)
      requires Valid() && i < |positions| && j < |positions[i]|
      ensures MaskMatches(positions, i, j, squaresToCheck)
    {
      squaresToCheck := [true, true, true, true, true, true, true, true];
      if i == 0 {
        squaresToCheck := squaresToCheck[6 := false][7 := false][0 := false];
      }
      if j == 0 {
        squaresToCheck := squaresToCheck[0 := false][1 := false][2 := false];
      }
      if i == |positions| - 1 {
        squaresToCheck := squaresToCheck[2 := false][3 := false][4 := false];
      }
      if j == |positions[i]| - 1 {
        squaresToCheck := squaresToCheck[4 := false][5 := false][6 := false];
      }
      MaskIsOnBoard(positions, i, j, squaresToCheck);
    }

    /** The live neighbours of (i, j), counted slot by slot over the slots that lie
        on the board; the count may stop early once it exceeds 3, so it is exact
        up to 3 and otherwise only known to be above 3. */
    method SumNeighbours(i: nat, j: nat) returns (sum: nat)
      requires Valid() && i < |positions| && j < |positions[i]|
      ensures sum <= 8
      ensures LiveNeighbours(positions, i, j) <= 3 ==> sum == LiveNeighbours(positions, i, j)
      ensures LiveNeighbours(positions, i, j) > 3 ==> 3 < sum <= LiveNeighbours(positions, i, j)
    {
      var squaresToCheck := SquaresToCheck(i, j);
      sum := 0;
      for idx := 0 to 8
        invariant sum == SlotSum(positions, i, j, idx)
      {
        var square := squaresToCheck[idx];
        SlotStep(positions, i, j, squaresToCheck, idx);
        if idx == 0 && square {
          sum := sum + GetValue(i - 1, j - 1);
        } else if idx == 1 && square {
          sum := sum + GetValue(i, j - 1);
        } else if idx == 2 && square {
          sum := sum + GetValue(i + 1, j - 1);
        } else if idx == 3 && square {
          sum := sum + GetValue(i + 1, j);
        } else if idx == 4 && square {
          sum := sum + GetValue(i + 1, j + 1);
        } else if idx == 5 && square {
          sum := sum + GetValue(i, j + 1);
        } else if idx == 6 && square {
          sum := sum + GetValue(i - 1, j + 1);
        } else if idx == 7 && square {
          sum := sum + GetValue(i - 1, j);
        } else if sum > 3 {
          CountSoFar(positions, i, j, idx, sum);
          return;
        }
      }
      CountSoFar(positions, i, j, 8, sum);
    }

    /** Whether cell (i, j) changes state this generation: a live cell with other
        than 2 or 3 live neighbours, or a dead cell with exactly 3. */
    method FlipsState(i: nat, j: nat) returns (flips: bool)
      requires Valid() && i < |positions| && j < |positions[i]|
      ensures flips == FlipsAt(positions, i, j)
    {
      var sum := SumNeighbours(i, j);
      var square := positions[i][j];
      if (square && !(2 <= sum <= 3)) || (!square && sum == 3) {
        return true;
      }
      return false;
    }

    /** The first half of a tick: the cells that change state this generation,
        row by row, each decided on the unchanged board. */
    method CollectFlips() returns (flips: seq<Point>)
      requires Valid()
      ensures forall p :: p in flips ==> FlipsAt(positions, p.y, p.x)
      ensures forall r: nat, c: nat :: FlipsAt(positions, r, c) ==> Point(c, r) in flips
      ensures forall a, b :: 0 <= a < b < |flips| ==> flips[a] != flips[b]
    {
      flips := [];
      for i := 0 to |positions|
        invariant forall p :: p in flips ==> p.y < i && FlipsAt(positions, p.y, p.x)
        invariant forall r: nat, c: nat :: r < i && FlipsAt(positions, r, c) ==> Point(c, r) in flips
        invariant forall a, b :: 0 <= a < b < |flips| ==> flips[a] != flips[b]
      {
        for j := 0 to |positions[i]|
          invariant forall p :: p in flips ==> (p.y < i || (p.y == i && p.x < j)) && FlipsAt(positions, p.y, p.x)
          invariant forall r: nat, c: nat :: (r < i || (r == i && c < j)) && FlipsAt(positions, r, c) ==> Point(c, r) in flips
          invariant forall a, b :: 0 <= a < b < |flips| ==> flips[a] != flips[b]
        {
          var f := FlipsState(i, j);
          if f {
            flips := flips + [Point(j, i)];
          }
        }
      }
    }

    /** The second half of a tick: every listed cell is flipped in place. */
    method ApplyFlips(flips: seq<Point>)
      requires forall p :: p in flips ==> InGrid(positions, p.y, p.x)
      requires forall a, b :: 0 <= a < b < |flips| ==> flips[a] != flips[b]
      modifies this
      ensures SameShape(positions, old(positions)) && iter == old(iter)
      ensures forall r, c :: InGrid(old(positions), r, c) ==>
        positions[r][c] == (old(positions)[r][c] != (Point(c, r) in flips))
    {
      for k := 0 to |flips|
        invariant SameShape(positions, old(positions)) && iter == old(iter)
        invariant forall r, c :: InGrid(old(positions), r, c) ==>
          positions[r][c] == (old(positions)[r][c] != (Point(c, r) in flips[..k]))
      {
        var point := flips[k];
        assert point in flips;
        assert point !in flips[..k];
        positions := positions[point.y := positions[point.y][point.x := !positions[point.y][point.x]]];
        assert flips[..k + 1] == flips[..k] + [point];
      }
      assert flips[..|flips|] == flips;
    }

    /** One generation: every flip is decided on the board as it was before the
        tick, and only then are the flips applied in place. */
    method Tick()
      requires Valid()
      modifies this
      ensures Valid() && SameShape(positions, old(positions))
      ensures iter == old(iter) + 1
      ensures positions == Next(old(positions))
      ensures forall r, c :: InGrid(old(positions), r, c) ==>
        positions[r][c] == (old(positions)[r][c] != FlipsAt(old(positions), r, c))
    {
      iter := iter + 1;
      var flips := CollectFlips();
      ghost var before := positions;
      ApplyFlips(flips);
      AppliedFlipsGiveNext(before, positions, flips);
      NextFlipsEveryCell(before);
    }

    /** The plain rendering (the Display form), built glyph by glyph. */
    method Fmt() returns (s: string)
      ensures s == Render(positions)
    {
      s := "";
      for i := 0 to |positions|
        invariant s == JoinLines(RowTexts(positions[..i]))
      {
        RenderStep(positions, i);
        if i != 0 {
          s := s + "\n";
        }
        s := AppendRow(s, positions[i]);
      }
      assert positions[..|positions|] == positions;
    }

    /** The glyphs of one row, appended to s. */
    static method AppendRow(s: string, row: seq<bool>) returns (t: string)
      ensures t == s + RowText(row)
    {
      t := s;
      for k := 0 to |row|
        invariant t == s + RowText(row[..k])
      {
        RowTextStep(row, k);
        if row[k] {
          t := t + " X ";
        } else {
          t := t + " - ";
        }
      }
      assert row[..|row|] == row;
    }

    /** The indexed rendering shown while setting up; the Rust program unwraps the first
        row, so it requires a board with at least one row. */
    method PrintWithIdx() returns (s: string)
      requires |positions| >= 1
      ensures s == IndexedRender(positions)
    {
      s := "   ";
      for i := 0 to |positions[0]|
        invariant s == "   " + HeaderCells(i)
      {
        HeaderStep(i);
        s := AppendLabel(s, i);
      }
      s := s + "\n";
      ghost var header := s;
      for i := 0 to |positions|
        invariant s == header + JoinLines(IndexedLines(positions[..i]))
      {
        IndexedStep(header, positions, i);
        if i != 0 {
          s := s + "\n";
        }
        s := AppendLabel(s, i);
        s := AppendRow(s, positions[i]);
      }
      assert positions[..|positions|] == positions;
    }

    /** The label of index k, appended to s. */
    static method AppendLabel(s: string, k: nat) returns (t: string)
      ensures t == s + Label(k)
    {
      t := s;
      t := t + " ";
      t := t + DecimalString(k);
      t := t + " ";
    }
  }
}
