/**
 * `Stats`: the fixed-width table. Every rendering function works on raw
 * strings, colour escapes included, so all lengths below are raw lengths.
 */
module StatsTable {
  import opened Text
  import opened Ordering
  import opened StatsLine
  import Thresholds

  const DefaultWidths: seq<int> := [12, 6, 8, 6, 10, 10, 8, 6, 8, 8, 8]
  const DefaultColumns: seq<string> :=
    ["COIN", "NTX", "LASTNTX", "UTXO", "BALANCE", "BLOCKS", "LASTBLK", "CONN", "SIZE", "NUMTX", "TIME"]

  function Sum(ws: seq<int>): int
  {
    if ws == [] then 0 else Sum(ws[..|ws| - 1]) + ws[|ws| - 1]
  }

  /** Extending a prefix by one element adds that element to its sum. */
  lemma SumSnoc(ws: seq<int>, k: nat)
    requires k < |ws|
    ensures Sum(ws[..k + 1]) == Sum(ws[..k]) + ws[k]
  {
    assert ws[..k + 1][..k] == ws[..k];
  }

  /** Every text of the row fits its column. */
  predicate Fits(widths: seq<int>, row: seq<string>)
  {
    |row| == |widths| && forall i :: 0 <= i < |row| ==> |row[i]| <= widths[i]
  }

  /** `sum(col_widths) + 2 * (len(col_widths) + 1)`. */
  function TableWidth(widths: seq<int>): int
  {
    Sum(widths) + 2 * (|widths| + 1)
  }

  /**
   * Cell i of a line, then " |": the first column's text is followed by its
   * padding (`ljust`), every other column's text is preceded by it (`rjust`).
   */
  function Cell(widths: seq<int>, row: seq<string>, i: nat): (c: string)
    requires i < |row| <= |widths|
    ensures |c| == Max(widths[i], |row[i]|) + 2
  {
    var padding := Repeat(' ', widths[i] - |row[i]|);
    (if i == 0 then row[i] + padding else padding + row[i]) + " |"
  }

  /** The first k cells of a line, in order. */
  function Cells(widths: seq<int>, row: seq<string>, k: nat): string
    requires k <= |row| <= |widths|
  {
    if k == 0 then "" else Cells(widths, row, k - 1) + Cell(widths, row, k - 1)
  }

  /**
   * The line `format_line` builds: " | " and then every cell, each as wide
   * as its column or its text, whichever is wider, plus 2.
   */
  function Line(widths: seq<int>, row: seq<string>): (r: string)
    requires |row| <= |widths|
  {
    " | " + Cells(widths, row, |row|)
  }

  /** The total padded width of the first k cells: each is as wide as its column or its text. */
  function PaddedWidth(widths: seq<int>, row: seq<string>, k: nat): int
    requires k <= |row| <= |widths|
  {
    if k == 0 then 0 else PaddedWidth(widths, row, k - 1) + Max(widths[k - 1], |row[k - 1]|)
  }

  /** Where cell i starts in a line. */
  function CellStart(widths: seq<int>, row: seq<string>, i: nat): int
    requires i <= |row| <= |widths|
  {
    3 + PaddedWidth(widths, row, i) + 2 * i
  }

  /**
   * A cell is its text padded to the column width and then " |": the text is
   * never cut, and the padding is on the right for the first column and on
   * the left for every other one.
   */
  lemma CellJustified(widths: seq<int>, row: seq<string>, i: nat)
    requires i < |row| <= |widths|
    ensures var c, n := Cell(widths, row, i), |row[i]|;
      && |c| == Max(widths[i], n) + 2
      && c[|c| - 2..] == " |"
      && (i == 0 ==> c[..n] == row[i] && forall k :: n <= k < |c| - 2 ==> c[k] == ' ')
      && (i > 0 ==> c[|c| - 2 - n..|c| - 2] == row[i] && forall k :: 0 <= k < |c| - 2 - n ==> c[k] == ' ')
  {
    var padding := Repeat(' ', widths[i] - |row[i]|);
    RepeatAll(' ', widths[i] - |row[i]|);
    var padded := if i == 0 then row[i] + padding else padding + row[i];
    var c := Cell(widths, row, i);
    assert c == padded + " |";
    assert c[..|padded|] == padded;
  }

  lemma {:induction false} CellsLength(widths: seq<int>, row: seq<string>, k: nat)
    requires k <= |row| <= |widths|
    ensures |Cells(widths, row, k)| == PaddedWidth(widths, row, k) + 2 * k
  {
    if k > 0 {
      CellsLength(widths, row, k - 1);
    }
  }

  lemma {:induction false} CellsPrefix(widths: seq<int>, row: seq<string>, j: nat, k: nat)
    requires j <= k <= |row| <= |widths|
    ensures Cells(widths, row, j) <= Cells(widths, row, k)
    decreases k
  {
    if j < k {
      CellsPrefix(widths, row, j, k - 1);
    }
  }

  /**
   * The layout of a line: it starts with " | ", cell i sits between
   * CellStart(i) and CellStart(i + 1), and the whole line is
   * 3 + (the padded widths) + 2 * len(row) characters long.
   */
  lemma LineLayout(widths: seq<int>, row: seq<string>, i: nat)
    requires i < |row| <= |widths|
    ensures |Line(widths, row)| == CellStart(widths, row, |row|)
    ensures 3 <= CellStart(widths, row, i) < CellStart(widths, row, i + 1) <= |Line(widths, row)|
    ensures Line(widths, row)[..3] == " | "
    ensures Line(widths, row)[CellStart(widths, row, i)..CellStart(widths, row, i + 1)] == Cell(widths, row, i)
  {
    var rest, before, cell := Cells(widths, row, |row|), Cells(widths, row, i), Cell(widths, row, i);
    assert Line(widths, row) == " | " + rest;
    PaddedWidthNonNegative(widths, row, i);
    PaddedWidthMonotonic(widths, row, i + 1, |row|);
    CellsLength(widths, row, |row|);
    CellsLength(widths, row, i);
    assert CellStart(widths, row, i) == 3 + |before|;
    assert CellStart(widths, row, i + 1) == 3 + |before| + |cell|;
    CellsPrefix(widths, row, i + 1, |row|);
    assert before + cell <= rest;
    SliceAfterPrefix(" | ", rest, before, cell);
  }

  lemma SliceAfterPrefix(head: string, rest: string, before: string, middle: string)
    requires before + middle <= rest
    ensures (head + rest)[|head| + |before|..|head| + |before| + |middle|] == middle
  {
  }

  /** When every text fits its column, the padded width is the sum of the widths. */
  lemma {:induction false} FittingPaddedWidth(widths: seq<int>, row: seq<string>, k: nat)
    requires k <= |row| <= |widths|
    requires forall i :: 0 <= i < k ==> |row[i]| <= widths[i]
    ensures PaddedWidth(widths, row, k) == Sum(widths[..k])
  {
    if k > 0 {
      FittingPaddedWidth(widths, row, k - 1);
      SumSnoc(widths, k - 1);
    }
  }

  /** `" " + "-" * table_width`. */
  function Spacer(tableWidth: int): (r: string)
    ensures |r| == Max(tableWidth, 0) + 1
    ensures r[0] == ' ' && forall i :: 1 <= i < |r| ==> r[i] == '-'
  {
    RepeatAll('-', tableWidth);
    " " + Repeat('-', tableWidth)
  }

  /**
   * `"| " + errors.center(table_width - 4) + " |"`: the message centred in the
   * table, as wide as the table when it fits (see FormatErrorsLayout).
   */
  function FormatErrors(tableWidth: int, errors: string): (r: string)
    ensures |r| == Max(tableWidth - 4, |errors|) + 4
    ensures |errors| <= tableWidth - 4 ==> |r| == tableWidth
  {
    "| " + Center(errors, tableWidth - 4) + " |"
  }

  /**
   * The error line is "| ", `left` spaces, the whole message, `right` spaces
   * and " |", where the two paddings differ by at most one.
   */
  lemma FormatErrorsLayout(tableWidth: int, errors: string)
    ensures var left := CenterLeft(|errors|, tableWidth - 4);
      var right := Max(tableWidth - 4 - |errors|, 0) - left;
      && 0 <= right && -1 <= left - right <= 1
      && FormatErrors(tableWidth, errors) == "| " + Repeat(' ', left) + errors + Repeat(' ', right) + " |"
  {
  }

  /** When every header fits its column, the header line is exactly as long as the spacer. */
  lemma HeaderMatchesSpacer(widths: seq<int>, columns: seq<string>)
    requires Fits(widths, columns)
    ensures |Line(widths, columns)| == |Spacer(TableWidth(widths))| == TableWidth(widths) + 1
  {
    CellsLength(widths, columns, |widths|);
    FittingPaddedWidth(widths, columns, |widths|);
    assert widths[..|widths|] == widths;
    assert PaddedWidth(widths, columns, |widths|) >= 0 by {
      PaddedWidthNonNegative(widths, columns, |widths|);
    }
  }

  lemma {:induction false} PaddedWidthNonNegative(widths: seq<int>, row: seq<string>, k: nat)
    requires k <= |row| <= |widths|
    ensures PaddedWidth(widths, row, k) >= 0
  {
    if k > 0 { PaddedWidthNonNegative(widths, row, k - 1); }
  }

  lemma {:induction false} PaddedWidthMonotonic(widths: seq<int>, row: seq<string>, j: nat, k: nat)
    requires j <= k <= |row| <= |widths|
    ensures PaddedWidth(widths, row, j) + 2 * j <= PaddedWidth(widths, row, k) + 2 * k
    decreases k
  {
    if j < k { PaddedWidthMonotonic(widths, row, j, k - 1); }
  }

  /**
   * The default layout: a 114-wide table with a 115-character spacer, and
   * one column name per column, each fitting its column (so the header is
   * as long as the spacer, see `Stats.Header`).
   */
  lemma DefaultLayout()
    ensures TableWidth(DefaultWidths) == 114 && |Spacer(114)| == 115
    ensures |DefaultWidths| == |DefaultColumns| == ColumnCount
    ensures Fits(DefaultWidths, DefaultColumns)
  {
    DefaultWidthsSum();
    DefaultColumnsFit();
  }

  /** Every default column name fits its column. */
  lemma DefaultColumnsFit()
    ensures Fits(DefaultWidths, DefaultColumns)
  {
  }

  /** The default column widths add up to 90. */
  lemma DefaultWidthsSum()
    ensures Sum(DefaultWidths) == 90
  {
    forall k {:trigger Sum(DefaultWidths[..k])} | 0 < k <= |DefaultWidths|
      ensures Sum(DefaultWidths[..k]) == Sum(DefaultWidths[..k - 1]) + DefaultWidths[k - 1]
    {
      SumSnoc(DefaultWidths, k - 1);
    }
    assert DefaultWidths[..|DefaultWidths|] == DefaultWidths;
  }

  /** The visible text of `Never` is exactly as wide as the two age columns it appears in. */
  lemma NeverFillsAgeColumns()
    ensures DefaultColumns[2] == "LASTNTX" && DefaultColumns[6] == "LASTBLK"
    ensures |Thresholds.NeverText| == DefaultWidths[2] == DefaultWidths[6]
  {
  }

  /** In the default layout every error message of up to 110 characters gives a 114-character line. */
  lemma DefaultErrorLines(e: string)
    requires |e| <= 110
    ensures |FormatErrors(TableWidth(DefaultWidths), e)| == 114
  {
    DefaultLayout();
  }

  /** The line `show` prints for one row: a one-cell row is an error, anything else a table line. */
  function RenderRow(widths: seq<int>, tableWidth: int, lightRed: string -> string, row: seq<string>): (r: string)
    requires |row| == 1 || |row| <= |widths|
  {
    if |row| == 1 then lightRed(FormatErrors(tableWidth, row[0])) else Line(widths, row)
  }

  /** A complete row becomes a table line; a failed one, the coloured centred error. */
  lemma RenderRowRoutes(coin: string, coins3P: set<string>, a: Answers, tableWidth: int, lightRed: string -> string)
    ensures var row := Row(coin, coins3P, a);
      && (Answered(a) ==> RenderRow(DefaultWidths, tableWidth, lightRed, row) == Line(DefaultWidths, row))
      && (!Answered(a) ==> RenderRow(DefaultWidths, tableWidth, lightRed, row)
                            == lightRed(FormatErrors(tableWidth, ErrorMessage(coin))))
  {
  }

  class Stats {
    const coins: array<string>
    const colWidths: seq<int>
    const columns: seq<string>
    const tableWidth: int

    /** The layout `__init__` sets up. */
    ghost predicate Valid()
    {
      && colWidths == DefaultWidths
      && columns == DefaultColumns
      && tableWidth == TableWidth(colWidths)
    }

    /** `Stats(coins)`: sorts the caller's list of coins in place and fixes the layout. */
    constructor (coins: array<string>)
      modifies coins
      ensures Valid() && this.coins == coins
      ensures Sorted(coins[..]) && multiset(coins[..]) == old(multiset(coins[..]))
      ensures tableWidth == 114
    {
      this.coins := coins;
      colWidths := DefaultWidths;
      columns := DefaultColumns;
      tableWidth := TableWidth(DefaultWidths);
      new;
      Sort(coins);
      DefaultLayout();
    }

    /** `format_line`: builds the line cell by cell. */
    method FormatLine(row: seq<string>) returns (line: string)
      requires |row| <= |colWidths|
      ensures line == Line(colWidths, row)
      ensures |line| == 3 + PaddedWidth(colWidths, row, |row|) + 2 * |row|
    {
      line := " | ";
      for i := 0 to |row|
        invariant line == " | " + Cells(colWidths, row, i)
      {
        ghost var before := line;
        if i == 0 {
          line := line + LJust(row[i], colWidths[i]) + " |";
          assert LJust(row[i], colWidths[i]) + " |" == Cell(colWidths, row, i);
        } else {
          line := line + RJust(row[i], colWidths[i]) + " |";
          assert RJust(row[i], colWidths[i]) + " |" == Cell(colWidths, row, i);
        }
        assert line == before + Cell(colWidths, row, i);
      }
      CellsLength(colWidths, row, |row|);
    }

    /** `header`: the column names laid out as a line, as long as the spacer. */
    method Header() returns (h: string)
      requires Valid()
      ensures h == Line(colWidths, columns)
      ensures |h| == |Spacer(tableWidth)| == 115
    {
      h := FormatLine(columns);
      DefaultLayout();
      HeaderMatchesSpacer(colWidths, columns);
    }

    /** The body of `show`'s loop: collect one coin's row and lay it out. */
    method ShowCoin(coin: string, coins3P: set<string>, a: Answers, lightRed: string -> string)
      returns (line: string)
      requires Valid()
      ensures line == RenderRow(colWidths, tableWidth, lightRed, Row(coin, coins3P, a))
    {
      var row := Get(coin, coins3P, a);
      DefaultLayout();
      if |row| == 1 {
        line := lightRed(FormatErrors(tableWidth, row[0]));
      } else {
        line := FormatLine(row);
      }
    }

    /** The loop of `show`: one line per coin, in the order of `coins`. */
    method ShowCoins(coins3P: set<string>, answers: seq<Answers>, lightRed: string -> string)
      returns (body: seq<string>)
      requires Valid()
      requires |answers| == coins.Length
      ensures |body| == coins.Length
      ensures forall k :: 0 <= k < coins.Length ==>
        body[k] == RenderRow(colWidths, tableWidth, lightRed, Row(coins[k], coins3P, answers[k]))
    {
      body := [];
      for k := 0 to coins.Length
        invariant |body| == k
        invariant forall j :: 0 <= j < k ==>
          body[j] == RenderRow(colWidths, tableWidth, lightRed, Row(coins[j], coins3P, answers[j]))
      {
        var line := ShowCoin(coins[k], coins3P, answers[k], lightRed);
        body := body + [line];
      }
    }

    /**
     * `show`, returning the lines it prints: a blank line, the header, the
     * spacer, one line per coin in the order of `coins`, the spacer and the
     * right-aligned time stamp. `answers[k]` is what the k-th coin's daemon
     * answers, `lightRed` stands for `ColorMsg.colorize(_, "lightred")` and
     * `now` for the formatted current time.
     */
    method Show(coins3P: set<string>, answers: seq<Answers>, lightRed: string -> string, now: string)
      returns (lines: seq<string>)
      requires Valid()
      requires |answers| == coins.Length
      ensures |lines| == coins.Length + 5
      ensures lines[0] == "" && lines[1] == Line(colWidths, columns) && lines[2] == Spacer(tableWidth)
      ensures forall k :: 0 <= k < coins.Length ==>
        lines[3 + k] == RenderRow(colWidths, tableWidth, lightRed, Row(coins[k], coins3P, answers[k]))
      ensures lines[|lines| - 2] == Spacer(tableWidth)
      ensures lines[|lines| - 1] == RJust("| " + now + " |", tableWidth + 1)
    {
      var header := Header();
      var body := ShowCoins(coins3P, answers, lightRed);
      lines := ["", header, Spacer(tableWidth)] + body + [Spacer(tableWidth), RJust("| " + now + " |", tableWidth + 1)];
    }
  }
}
