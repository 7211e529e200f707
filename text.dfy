/** The board's text forms: the plain rendering (one line per row, a three-character
    glyph per cell), the indexed rendering shown during setup, and the decimal
    numbers the indexed form prints and the setup prompt parses back. */
module Text {
  import opened Life

  datatype Option<T> = None | Some(value: T)

  /** The glyph of one cell: " X " for a live cell, " - " for a dead one. */
  function Glyph(alive: bool): string {
    if alive then " X " else " - "
  }

  /** One row, glyph after glyph. */
  function RowText(row: seq<bool>): (t: string)
    ensures |t| == 3 * |row|
    ensures '\n' !in t
  {
    if |row| == 0 then "" else RowText(row[..|row| - 1]) + Glyph(row[|row| - 1])
  }

  /** Lines separated by a newline, with none after the last. */
  function JoinLines(lines: seq<string>): string {
    if |lines| == 0 then ""
    else if |lines| == 1 then lines[0]
    else JoinLines(lines[..|lines| - 1]) + "\n" + lines[|lines| - 1]
  }

  function RowTexts(g: Grid): (ls: seq<string>)
    ensures |ls| == |g|
  {
    seq(|g|, k requires 0 <= k < |g| => RowText(g[k]))
  }

  /** The plain rendering of a board. */
  function Render(g: Grid): string {
    JoinLines(RowTexts(g))
  }

  /** The lines of a text: the pieces between newlines (a text without newline is one line). */
  function SplitLines(s: string): (lines: seq<string>)
    ensures |lines| >= 1
  {
    if |s| == 0 then [""]
    else
      var init := SplitLines(s[..|s| - 1]);
      if s[|s| - 1] == '\n' then init + [""]
      else init[..|init| - 1] + [init[|init| - 1] + [s[|s| - 1]]]
  }

  predicate NoNewlines(lines: seq<string>) {
    forall k :: 0 <= k < |lines| ==> '\n' !in lines[k]
  }

  /** Reads one rendered row back; None when the text is not a run of glyphs. */
  function DecodeRow(t: string): Option<seq<bool>> {
    if |t| == 0 then Some([])
    else if |t| < 3 then None
    else match DecodeRow(t[..|t| - 3])
      case None => None
      case Some(row) =>
        var glyph := t[|t| - 3..];
        if glyph == " X " then Some(row + [true])
        else if glyph == " - " then Some(row + [false])
        else None
  }

  function DecodeLines(lines: seq<string>): Option<Grid> {
    if |lines| == 0 then Some([])
    else match DecodeLines(lines[..|lines| - 1])
      case None => None
      case Some(g) =>
        match DecodeRow(lines[|lines| - 1])
        case None => None
        case Some(row) => Some(g + [row])
  }

  /** Reads a plain rendering back into a board. */
  function Decode(s: string): Option<Grid> {
    DecodeLines(SplitLines(s))
  }

  lemma {:induction false} JoinSnoc(lines: seq<string>, last: string)
    requires |lines| >= 1
    ensures JoinLines(lines + [last]) == JoinLines(lines) + "\n" + last
  {
    assert (lines + [last])[..|lines|] == lines;
  }

  lemma {:induction false} JoinCons(first: string, lines: seq<string>)
    requires |lines| >= 1
    ensures JoinLines([first] + lines) == first + "\n" + JoinLines(lines)
    decreases |lines|
  {
    if |lines| == 1 {
      assert [first] + lines == [first, lines[0]];
    } else {
      var init := lines[..|lines| - 1];
      JoinCons(first, init);
      assert [first] + lines == ([first] + init) + [lines[|lines| - 1]];
      JoinSnoc([first] + init, lines[|lines| - 1]);
      JoinSnoc(init, lines[|lines| - 1]);
      assert init + [lines[|lines| - 1]] == lines;
    }
  }

  lemma {:induction false} SplitSingle(s: string)
    requires '\n' !in s
    ensures SplitLines(s) == [s]
    decreases |s|
  {
    if |s| > 0 {
      SplitSingle(s[..|s| - 1]);
      assert s[..|s| - 1] + [s[|s| - 1]] == s;
    }
  }

  lemma {:induction false} SplitAfterNewline(a: string, b: string)
    requires '\n' !in b
    ensures SplitLines(a + "\n" + b) == SplitLines(a) + [b]
    decreases |b|
  {
    var s := a + "\n" + b;
    if |b| == 0 {
      assert s[..|s| - 1] == a;
    } else {
      var b' := b[..|b| - 1];
      assert s[..|s| - 1] == a + "\n" + b';
      SplitAfterNewline(a, b');
      assert b' + [b[|b| - 1]] == b;
    }
  }

  /** Splitting at newlines undoes joining lines that hold no newline. */
  lemma {:induction false} SplitJoin(lines: seq<string>)
    requires |lines| >= 1 && NoNewlines(lines)
    ensures SplitLines(JoinLines(lines)) == lines
    decreases |lines|
  {
    if |lines| == 1 {
      SplitSingle(lines[0]);
    } else {
      var init := lines[..|lines| - 1];
      SplitJoin(init);
      SplitAfterNewline(JoinLines(init), lines[|lines| - 1]);
      assert init + [lines[|lines| - 1]] == lines;
    }
  }

  lemma SplitAppend(a: string, b: string)
    ensures (a + b)[..|a|] == a && (a + b)[|a|..] == b
  {
  }

  /** Reading one more glyph extends the decoded row by its cell. */
  lemma DecodeGlyph(prefix: string, cells: seq<bool>, alive: bool)
    requires DecodeRow(prefix) == Some(cells)
    ensures DecodeRow(prefix + Glyph(alive)) == Some(cells + [alive])
  {
    var t := prefix + Glyph(alive);
    SplitAppend(prefix, Glyph(alive));
    assert t[..|t| - 3] == prefix && t[|t| - 3..] == Glyph(alive);
  }

  lemma RowTextSnoc(init: seq<bool>, last: bool)
    ensures RowText(init + [last]) == RowText(init) + Glyph(last)
  {
    assert (init + [last])[..|init|] == init;
  }

  /** Every row of the rendering reads back as the row it came from. */
  lemma {:induction false} DecodeRowText(row: seq<bool>)
    ensures DecodeRow(RowText(row)) == Some(row)
    decreases |row|
  {
    if |row| > 0 {
      var init, last := row[..|row| - 1], row[|row| - 1];
      assert row == init + [last];
      RowTextSnoc(init, last);
      DecodeRowText(init);
      DecodeGlyph(RowText(init), init, last);
    }
  }

  lemma {:induction false} DecodeRowTexts(g: Grid)
    ensures DecodeLines(RowTexts(g)) == Some(g)
    decreases |g|
  {
    if |g| > 0 {
      var init := g[..|g| - 1];
      assert RowTexts(g)[..|g| - 1] == RowTexts(init);
      DecodeRowTexts(init);
      DecodeRowText(g[|g| - 1]);
      assert init + [g[|g| - 1]] == g;
    }
  }

  /** Rendering a row one more glyph at a time. */
  lemma RowTextStep(row: seq<bool>, k: nat)
    requires k < |row|
    ensures RowText(row[..k + 1]) == RowText(row[..k]) + Glyph(row[k])
  {
    assert row[..k + 1][..k] == row[..k];
  }

  /** Joining one more line: a newline goes before it unless it is the first. */
  lemma JoinStep(lines: seq<string>, last: string)
    ensures JoinLines(lines + [last]) == JoinLines(lines) + (if |lines| == 0 then "" else "\n") + last
  {
    if |lines| != 0 {
      JoinSnoc(lines, last);
    }
  }

  /** Rendering the rows of a board one more row at a time. */
  lemma RenderStep(g: Grid, i: nat)
    requires i < |g|
    ensures JoinLines(RowTexts(g[..i + 1])) ==
      JoinLines(RowTexts(g[..i])) + (if i == 0 then "" else "\n") + RowText(g[i])
  {
    assert RowTexts(g[..i + 1]) == RowTexts(g[..i]) + [RowText(g[i])];
    JoinStep(RowTexts(g[..i]), RowText(g[i]));
  }

  /** The rendering has one line per row, line k being the glyphs of row k:
      rows are separated by a newline and none follows the last. */
  lemma RenderLines(g: Grid)
    requires |g| >= 1
    ensures SplitLines(Render(g)) == RowTexts(g)
    ensures forall k :: 0 <= k < |g| ==> |SplitLines(Render(g))[k]| == 3 * |g[k]|
  {
    SplitJoin(RowTexts(g));
  }

  /** The rendering of a board with at least one row reads back as that board. */
  lemma RenderRoundTrip(g: Grid)
    requires |g| >= 1
    ensures Decode(Render(g)) == Some(g)
  {
    RenderLines(g);
    DecodeRowTexts(g);
  }

  /** The empty board and a board of one empty row render alike. */
  lemma RenderEmptyAmbiguous()
    ensures Render([]) == Render([[]]) == ""
  {
  }

  // Decimal numbers: usize::to_string and str::parse::<usize>.

  /** The largest usize on a 64-bit target. */
  const UsizeMax: nat := 0xFFFF_FFFF_FFFF_FFFF

  predicate IsDigit(ch: char) {
    '0' <= ch <= '9'
  }

  predicate AllDigits(s: string) {
    forall k :: 0 <= k < |s| ==> IsDigit(s[k])
  }

  function DigitChar(d: nat): (ch: char)
    requires d < 10
    ensures IsDigit(ch)
  {
    (d + '0' as int) as char
  }

  /** The decimal form of n, without leading zeros. */
  function DecimalString(n: nat): (s: string)
    ensures |s| >= 1 && AllDigits(s)
    ensures s[0] != '0' || n == 0
  {
    if n < 10 then [DigitChar(n)] else DecimalString(n / 10) + [DigitChar(n % 10)]
  }

  function DigitsValue(s: string): nat
    requires AllDigits(s)
  {
    if |s| == 0 then 0 else 10 * DigitsValue(s[..|s| - 1]) + (s[|s| - 1] as int - '0' as int)
  }

  /** The digits of a number token: the token without a leading '+'. */
  function Magnitude(s: string): string
    requires |s| >= 1
  {
    if s[0] == '+' then s[1..] else s
  }

  /** Rust's parse::<usize> of an already trimmed token: an optional '+', then one
      or more decimal digits, whose value must fit in a usize. */
  function ParseUsize(s: string): (r: Option<nat>)
    ensures r.Some? ==> r.value <= UsizeMax
  {
    if |s| == 0 then None
    else if (s[0] == '+' || s[0] == '-') && |s| == 1 then None
    else
      var digits := if s[0] == '+' then s[1..] else s;
      if AllDigits(digits) && DigitsValue(digits) <= UsizeMax then Some(DigitsValue(digits)) else None
  }

  /** A token parses exactly when it is an optional '+' followed by one or more
      digits whose value fits in a usize, and then it parses as that value. */
  lemma ParseUsizeMeaning(s: string)
    ensures ParseUsize(s).Some? <==> |s| >= 1 && |Magnitude(s)| >= 1 && AllDigits(Magnitude(s)) &&
                                     DigitsValue(Magnitude(s)) <= UsizeMax
    ensures ParseUsize(s).Some? ==> ParseUsize(s).value == DigitsValue(Magnitude(s))
  {
  }

  lemma {:induction false} DigitsOfDecimal(n: nat)
    ensures DigitsValue(DecimalString(n)) == n
    decreases n
  {
    if n >= 10 {
      var s := DecimalString(n);
      DigitsOfDecimal(n / 10);
      assert s[..|s| - 1] == DecimalString(n / 10);
    }
  }

  /** A printed index parses back to itself when it fits in a usize, and is
      rejected when it does not. */
  lemma ParseDecimal(n: nat)
    ensures ParseUsize(DecimalString(n)) == if n <= UsizeMax then Some(n) else None
  {
    DigitsOfDecimal(n);
  }

  /** A leading zero does not change the value of a run of digits. */
  lemma {:induction false} LeadingZeroValue(s: string)
    requires AllDigits(s)
    ensures AllDigits("0" + s) && DigitsValue("0" + s) == DigitsValue(s)
    decreases |s|
  {
    var z := "0" + s;
    assert AllDigits(z) by {
      forall k | 0 <= k < |z| ensures IsDigit(z[k]) {
        if k > 0 {
          assert z[k] == s[k - 1];
        }
      }
    }
    if |s| > 0 {
      assert z[..|z| - 1] == "0" + s[..|s| - 1];
      LeadingZeroValue(s[..|s| - 1]);
    }
  }

  /** A leading '+' or a leading zero in front of a number gives the same result. */
  lemma ParseIgnoresPlusAndZero(s: string)
    requires |s| >= 1 && AllDigits(s)
    ensures ParseUsize("+" + s) == ParseUsize(s)
    ensures ParseUsize("0" + s) == ParseUsize(s)
  {
    assert ("+" + s)[1..] == s;
    LeadingZeroValue(s);
  }

  /** The tokens "+7" and "07" both select index 7. */
  lemma SignedAndPaddedSeven()
    ensures ParseUsize("+7") == Some(7) && ParseUsize("07") == Some(7)
  {
    ParseDecimal(7);
    assert DecimalString(7) == "7";
    ParseIgnoresPlusAndZero("7");
    assert "+" + "7" == "+7" && "0" + "7" == "07";
  }

  /** The first number past the largest usize is rejected. */
  lemma ParseRejectsOverflow()
    ensures ParseUsize(DecimalString(UsizeMax + 1)) == None
  {
    ParseDecimal(UsizeMax + 1);
  }

  /** The setup commands are not numbers. */
  lemma CommandsAreNotNumbers()
    ensures ParseUsize("c") == None && ParseUsize("r") == None && ParseUsize("") == None
    ensures ParseUsize("-1") == None && ParseUsize("+") == None
  {
  }

  // The indexed rendering of the setup phase.

  /** The label of row or column k: its index between two spaces. */
  function Label(k: nat): (t: string)
    ensures '\n' !in t
  {
    " " + DecimalString(k) + " "
  }

  /** The column labels of the first n columns. */
  function HeaderCells(n: nat): (t: string)
    ensures '\n' !in t
  {
    if n == 0 then "" else HeaderCells(n - 1) + Label(n - 1)
  }

  function IndexedLine(k: nat, row: seq<bool>): (t: string)
    ensures '\n' !in t
  {
    Label(k) + RowText(row)
  }

  function IndexedLines(g: Grid): (ls: seq<string>)
    ensures |ls| == |g|
  {
    seq(|g|, k requires 0 <= k < |g| => IndexedLine(k, g[k]))
  }

  /** The indexed rendering: a header of column labels sized by the first row,
      then each row prefixed by its own label. */
  function IndexedRender(g: Grid): string
    requires |g| >= 1
  {
    "   " + HeaderCells(|g[0]|) + "\n" + JoinLines(IndexedLines(g))
  }

  /** The header line one more column label at a time. */
  lemma HeaderStep(n: nat)
    ensures "   " + HeaderCells(n + 1) == "   " + HeaderCells(n) + Label(n)
  {
  }

  /** The labelled rows of a board one more row at a time, in the order the
      pieces of the new row are appended: separator, label, glyphs. */
  lemma IndexedStep(prefix: string, g: Grid, i: nat)
    requires i < |g|
    ensures prefix + JoinLines(IndexedLines(g[..i + 1])) ==
      prefix + JoinLines(IndexedLines(g[..i])) + (if i == 0 then "" else "\n") + Label(i) + RowText(g[i])
  {
    var done := JoinLines(IndexedLines(g[..i]));
    var sep := if i == 0 then "" else "\n";
    assert IndexedLines(g[..i + 1]) == IndexedLines(g[..i]) + [IndexedLine(i, g[i])];
    JoinStep(IndexedLines(g[..i]), IndexedLine(i, g[i]));
    assert JoinLines(IndexedLines(g[..i + 1])) == done + sep + (Label(i) + RowText(g[i]));
    Associative(done + sep, Label(i), RowText(g[i]));
    Associative(prefix, done + sep + Label(i), RowText(g[i]));
    Associative(prefix, done + sep, Label(i));
    Associative(prefix, done, sep);
  }

  lemma Associative(a: string, b: string, c: string)
    ensures a + (b + c) == a + b + c
  {
  }

  /** The indexed rendering is the header line followed by one labelled line per row. */
  lemma IndexedRenderLines(g: Grid)
    requires |g| >= 1
    ensures SplitLines(IndexedRender(g)) == ["   " + HeaderCells(|g[0]|)] + IndexedLines(g)
  {
    var header := "   " + HeaderCells(|g[0]|);
    JoinCons(header, IndexedLines(g));
    SplitJoin([header] + IndexedLines(g));
  }
}
