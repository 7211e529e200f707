/** The game around the board: the bounds-checked toggle used while editing,
    the randomizer, and the setup dialogue that reads a column and a row per
    round until the player continues. */
module Game {
  import opened Life
  import opened Text
  import opened Board

  /** A size by size board with every cell dead: the game's starting board. */
  function Blank(size: nat): (g: Grid)
    ensures |g| == size && Rectangular(g) && AllDead(g)
    ensures forall r :: 0 <= r < size ==> |g[r]| == size
  {
    seq(size, r => seq(size, c => false))
  }

  /** The board with the cell at outer index i, inner index j flipped; any index
      out of range leaves the board as it is. */
  function Toggle(g: Grid, i: nat, j: nat): (r: Grid)
    ensures SameShape(r, g)
  {
    if i < |g| && j < |g[i]| then g[i := g[i][j := !g[i][j]]] else g
  }

  /** Exactly the addressed cell changes, when it exists. */
  lemma ToggleCells(g: Grid, i: nat, j: nat)
    ensures forall r, c :: InGrid(g, r, c) ==>
      Toggle(g, i, j)[r][c] == (g[r][c] != (r == i && c == j))
  {
  }

  /** An index past the edge of the board changes nothing. */
  lemma ToggleOutOfRange(g: Grid, i: nat, j: nat)
    requires !InGrid(g, i, j)
    ensures Toggle(g, i, j) == g
  {
  }

  /** Toggling the same cell twice restores the board. */
  lemma ToggleTwice(g: Grid, i: nat, j: nat)
    ensures Toggle(Toggle(g, i, j), i, j) == g
  {
    var once := Toggle(g, i, j);
    ToggleCells(g, i, j);
    ToggleCells(once, i, j);
    CellwiseEqual(Toggle(once, i, j), g);
  }

  /** The supply of random cells: coin(round, i, j) is the value drawn for cell
      (i, j) by the randomization numbered round. */
  type Coin = (nat, nat, nat) -> bool

  /** The board after a randomization: the same shape, every cell drawn afresh. */
  function Randomized(g: Grid, coin: Coin, round: nat): (r: Grid)
    ensures SameShape(r, g)
  {
    seq(|g|, i requires 0 <= i < |g| => seq(|g[i]|, j requires 0 <= j < |g[i]| => coin(round, i, j)))
  }

  /** A randomization keeps nothing of the old cells: only the shape matters. */
  lemma RandomizedForgetsCells(a: Grid, b: Grid, coin: Coin, round: nat)
    requires SameShape(a, b)
    ensures Randomized(a, coin, round) == Randomized(b, coin, round)
  {
  }

  /** Every cell can be set either way: with a coin that always shows the
      wanted cells, a randomization produces any board of the same shape. */
  lemma RandomizedReachesAll(g: Grid, target: Grid, round: nat)
    requires SameShape(target, g)
    ensures Randomized(g, (t, i, j) => InGrid(target, i, j) && target[i][j], round) == target
  {
    var coin: Coin := (t, i, j) => InGrid(target, i, j) && target[i][j];
    CellwiseEqual(Randomized(g, coin, round), target);
  }

  /** Where the setup dialogue ends: the board, and whether the player chose to
      continue (false when the input ran out first). */
  datatype SetupResult = SetupResult(grid: Grid, finished: bool)

  /** The setup dialogue from token t on: each round reads a column token and a
      row token. "c" at either prompt ends the setup; "r" randomizes the board and,
      since it is no number, starts the next round; a token that is no number
      starts the next round and drops a column already read; two numbers toggle
      the cell whose outer index is the column and inner index the row. */
  function SetupFrom(g: Grid, tokens: seq<string>, t: nat, coin: Coin): (res: SetupResult)
    requires t <= |tokens|
    decreases |tokens| - t
  {
    if t == |tokens| then SetupResult(g, false)
    else
      var col := tokens[t];
      if col == "c" then SetupResult(g, true)
      else
        var g1 := if col == "r" then Randomized(g, coin, t) else g;
        match ParseUsize(col)
        case None => SetupFrom(g1, tokens, t + 1, coin)
        case Some(c) =>
          if t + 1 == |tokens| then SetupResult(g1, false)
          else
            var row := tokens[t + 1];
            if row == "c" then SetupResult(g1, true)
            else
              var g2 := if row == "r" then Randomized(g1, coin, t + 1) else g1;
              match ParseUsize(row)
              case None => SetupFrom(g2, tokens, t + 2, coin)
              case Some(r) => SetupFrom(Toggle(g2, c, r), tokens, t + 2, coin)
  }

  /** Setup never changes the shape of the board. */
  lemma {:induction false} SetupKeepsShape(g: Grid, tokens: seq<string>, t: nat, coin: Coin)
    requires t <= |tokens|
    ensures SameShape(SetupFrom(g, tokens, t, coin).grid, g)
    decreases |tokens| - t
  {
    if t < |tokens| && tokens[t] != "c" {
      var g1 := if tokens[t] == "r" then Randomized(g, coin, t) else g;
      match ParseUsize(tokens[t])
      case None =>
        SetupKeepsShape(g1, tokens, t + 1, coin);
      case Some(c) =>
        if t + 1 < |tokens| && tokens[t + 1] != "c" {
          var g2 := if tokens[t + 1] == "r" then Randomized(g1, coin, t + 1) else g1;
          match ParseUsize(tokens[t + 1])
          case None =>
            SetupKeepsShape(g2, tokens, t + 2, coin);
          case Some(r) =>
            SetupKeepsShape(Toggle(g2, c, r), tokens, t + 2, coin);
        }
    }
  }

  /** Setup reports that the player continued exactly when a "c" was entered:
      every token is compared with "c" before the dialogue moves past it. */
  lemma {:induction false} SetupFinishesIffC(g: Grid, tokens: seq<string>, t: nat, coin: Coin)
    requires t <= |tokens|
    ensures SetupFrom(g, tokens, t, coin).finished <==> "c" in tokens[t..]
    decreases |tokens| - t
  {
    if t < |tokens| && tokens[t] != "c" {
      assert tokens[t..] == [tokens[t]] + tokens[t + 1..];
      var g1 := if tokens[t] == "r" then Randomized(g, coin, t) else g;
      match ParseUsize(tokens[t])
      case None =>
        SetupFinishesIffC(g1, tokens, t + 1, coin);
      case Some(c) =>
        if t + 1 == |tokens| {
          assert tokens[t + 1..] == [];
        } else if tokens[t + 1] != "c" {
          assert tokens[t + 1..] == [tokens[t + 1]] + tokens[t + 2..];
          var g2 := if tokens[t + 1] == "r" then Randomized(g1, coin, t + 1) else g1;
          match ParseUsize(tokens[t + 1])
          case None =>
            SetupFinishesIffC(g2, tokens, t + 2, coin);
          case Some(r) =>
            SetupFinishesIffC(Toggle(g2, c, r), tokens, t + 2, coin);
        }
    }
  }

  /** "c" at the column prompt ends the setup with the board unchanged. */
  lemma SetupStopsAtColumnC(g: Grid, tokens: seq<string>, t: nat, coin: Coin)
    requires t < |tokens| && tokens[t] == "c"
    ensures SetupFrom(g, tokens, t, coin) == SetupResult(g, true)
  {
  }

  /** "c" at the row prompt ends the setup too; the column read before it is dropped. */
  lemma SetupStopsAtRowC(g: Grid, tokens: seq<string>, t: nat, coin: Coin, c: nat)
    requires t + 1 < |tokens| && ParseUsize(tokens[t]) == Some(c) && tokens[t + 1] == "c"
    ensures SetupFrom(g, tokens, t, coin) == SetupResult(g, true)
  {
  }

  /** "r" at the column prompt randomizes the board and starts the next round. */
  lemma SetupRandomizesAtColumn(g: Grid, tokens: seq<string>, t: nat, coin: Coin)
    requires t < |tokens| && tokens[t] == "r"
    ensures SetupFrom(g, tokens, t, coin) == SetupFrom(Randomized(g, coin, t), tokens, t + 1, coin)
  {
  }

  /** "r" at the row prompt randomizes the board, drops the column and starts
      the next round. */
  lemma SetupRandomizesAtRow(g: Grid, tokens: seq<string>, t: nat, coin: Coin, c: nat)
    requires t + 1 < |tokens| && ParseUsize(tokens[t]) == Some(c) && tokens[t + 1] == "r"
    ensures SetupFrom(g, tokens, t, coin) == SetupFrom(Randomized(g, coin, t + 1), tokens, t + 2, coin)
  {
  }

  /** A column token that is neither a command nor a number is skipped. */
  lemma SetupSkipsBadColumn(g: Grid, tokens: seq<string>, t: nat, coin: Coin)
    requires t < |tokens| && tokens[t] != "c" && tokens[t] != "r" && ParseUsize(tokens[t]) == None
    ensures SetupFrom(g, tokens, t, coin) == SetupFrom(g, tokens, t + 1, coin)
  {
  }

  /** A row token that is neither a command nor a number is skipped together
      with the column read before it. */
  lemma SetupSkipsBadRow(g: Grid, tokens: seq<string>, t: nat, coin: Coin, c: nat)
    requires t + 1 < |tokens| && ParseUsize(tokens[t]) == Some(c)
    requires tokens[t + 1] != "c" && tokens[t + 1] != "r" && ParseUsize(tokens[t + 1]) == None
    ensures SetupFrom(g, tokens, t, coin) == SetupFrom(g, tokens, t + 2, coin)
  {
  }

  /** Two numbers toggle positions[column][row]: the number entered at the
      column prompt picks the outer index, which the indexed rendering labels
      as a row. */
  lemma SetupTogglesPair(g: Grid, tokens: seq<string>, t: nat, coin: Coin, c: nat, r: nat)
    requires t + 1 < |tokens| && ParseUsize(tokens[t]) == Some(c) && ParseUsize(tokens[t + 1]) == Some(r)
    ensures SetupFrom(g, tokens, t, coin) == SetupFrom(Toggle(g, c, r), tokens, t + 2, coin)
  {
  }

  /** Entering the same pair twice in a row leaves the board as it was. */
  lemma SetupRepeatedPairCancels(g: Grid, tokens: seq<string>, t: nat, coin: Coin, c: nat, r: nat)
    requires t + 3 < |tokens|
    requires ParseUsize(tokens[t]) == Some(c) && ParseUsize(tokens[t + 1]) == Some(r)
    requires tokens[t + 2] == tokens[t] && tokens[t + 3] == tokens[t + 1]
    ensures SetupFrom(g, tokens, t, coin) == SetupFrom(g, tokens, t + 4, coin)
  {
    SetupTogglesPair(g, tokens, t, coin, c, r);
    SetupTogglesPair(Toggle(g, c, r), tokens, t + 2, coin, c, r);
    ToggleTwice(g, c, r);
  }

  /** A number left at the column prompt when the input ends changes nothing. */
  lemma SetupDanglingColumn(g: Grid, tokens: seq<string>, coin: Coin, c: nat)
    requires |tokens| >= 1 && ParseUsize(tokens[|tokens| - 1]) == Some(c)
    ensures SetupFrom(g, tokens, |tokens| - 1, coin) == SetupResult(g, false)
  {
  }

  /** The game: a board edited in place, and the pause between generations. */
  class Game {
    const board: Board
    var sleepTime: nat

    /** A game on a size by size board of dead cells. */
    constructor (time: nat, size: nat)
      ensures fresh(board) && board.positions == Blank(size) && board.iter == 0
      ensures board.Valid() && sleepTime == time
    {
      board := new Board(Blank(size));
      sleepTime := time;
    }

    /** Flips the cell at outer index i, inner index j; out-of-range indices are ignored. */
    method ChangeValue(i: nat, j: nat)
      modifies board
      ensures board.positions == Toggle(old(board.positions), i, j)
      ensures board.iter == old(board.iter)
      ensures board.Valid() == old(board.Valid())
    {
      if i >= |board.positions| {
        return;
      }
      var row := board.positions[i];
      if j >= |row| {
        return;
      }
      board.positions := board.positions[i := board.positions[i][j := !board.positions[i][j]]];
      SameShapeRectangular(board.positions, old(board.positions));
    }

    /** Overwrites every cell, row by row, with the draw of randomization round. */
    method RandomSetup(coin: Coin, round: nat)
      modifies board
      ensures board.positions == Randomized(old(board.positions), coin, round)
      ensures board.iter == old(board.iter)
      ensures board.Valid() == old(board.Valid())
    {
      ghost var before := board.positions;
      for i := 0 to |board.positions|
        invariant SameShape(board.positions, before) && board.iter == old(board.iter)
        invariant forall r, c :: InGrid(before, r, c) ==>
          board.positions[r][c] == (if r < i then coin(round, r, c) else before[r][c])
      {
        for j := 0 to |board.positions[i]|
          invariant SameShape(board.positions, before) && board.iter == old(board.iter)
          invariant forall r, c :: InGrid(before, r, c) ==>
            board.positions[r][c] == (if r < i || (r == i && c < j) then coin(round, r, c) else before[r][c])
        {
          board.positions := board.positions[i := board.positions[i][j := coin(round, i, j)]];
        }
      }
      CellwiseEqual(board.positions, Randomized(before, coin, round));
      SameShapeRectangular(board.positions, before);
    }

    /** The setup dialogue over the given input tokens (already trimmed). It
        returns whether the player chose to continue; when the tokens run out
        first it returns false. The indexed board is rendered before every round,
        and that rendering needs a first row. */
    method SetupBoard(tokens: seq<string>, coin: Coin) returns (finished: bool)
      requires |board.positions| >= 1
      modifies board
      ensures SetupResult(board.positions, finished) == SetupFrom(old(board.positions), tokens, 0, coin)
      ensures board.iter == old(board.iter)
      ensures board.Valid() == old(board.Valid())
    {
      var t := 0;
      while t < |tokens|
        invariant t <= |tokens| && board.iter == old(board.iter)
        invariant |board.positions| == |old(board.positions)|
        invariant board.Valid() == old(board.Valid())
        invariant SetupFrom(board.positions, tokens, t, coin) == SetupFrom(old(board.positions), tokens, 0, coin)
        decreases |tokens| - t
      {
        var screen := board.PrintWithIdx();
        var col := tokens[t];
        if col == "c" {
          return true;
        } else if col == "r" {
          RandomSetup(coin, t);
        }
        var column := ParseUsize(col);
        if column.None? {
          t := t + 1;
          continue;
        }
        if t + 1 == |tokens| {
          return false;
        }
        var row := tokens[t + 1];
        if row == "c" {
          return true;
        } else if row == "r" {
          RandomSetup(coin, t + 1);
        }
        var rowIndex := ParseUsize(row);
        if rowIndex.None? {
          t := t + 2;
          continue;
        }
        ChangeValue(column.value, rowIndex.value);
        t := t + 2;
      }
      finished := false;
    }
  }
}
