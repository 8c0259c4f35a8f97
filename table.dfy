/**
 * The `table` type of table.go: rows of string cells, appended one at a time
 * and laid out as lines of text with a fixed number of spaces between
 * columns, every column as wide as its widest cell (counted in code points).
 */
module TableFormat {
  import opened Fmt

  /**
   * Width of column `j`: the largest code point count of a cell in that
   * column, over the rows long enough to have one; 0 when there is none.
   */
  function ColumnWidth(rows: seq<seq<string>>, j: int): nat
  {
    if rows == [] then 0
    else
      var w := ColumnWidth(rows[..|rows| - 1], j);
      var last := rows[|rows| - 1];
      if 0 <= j < |last| && |last[j]| > w then |last[j]| else w
  }

  /** The width of a column is the maximum of its cells' lengths: no cell is wider, and some cell is as wide. */
  lemma {:induction false} ColumnWidthIsMax(rows: seq<seq<string>>, j: int)
    ensures forall i :: 0 <= i < |rows| && 0 <= j < |rows[i]| ==> |rows[i][j]| <= ColumnWidth(rows, j)
    ensures ColumnWidth(rows, j) == 0 ||
      exists i :: 0 <= i < |rows| && 0 <= j < |rows[i]| && |rows[i][j]| == ColumnWidth(rows, j)
  {
    if rows != [] {
      var front := rows[..|rows| - 1];
      ColumnWidthIsMax(front, j);
      assert forall i :: 0 <= i < |rows| - 1 ==> front[i] == rows[i];
      if ColumnWidth(rows, j) != ColumnWidth(front, j) {
        assert |rows[|rows| - 1][j]| == ColumnWidth(rows, j);
      } else if ColumnWidth(rows, j) != 0 {
        var i :| 0 <= i < |front| && 0 <= j < |front[i]| && |front[i][j]| == ColumnWidth(front, j);
        assert rows[i] == front[i];
      }
    }
  }

  /** The widths of the first `n` columns. */
  function Widths(rows: seq<seq<string>>, n: nat): (ws: seq<nat>)
    ensures |ws| == n && forall j :: 0 <= j < n ==> ws[j] == ColumnWidth(rows, j)
  {
    seq(n, j => ColumnWidth(rows, j))
  }

  /**
   * No padding count is negative: the source asks `strings.Repeat` for
   * `width-len(val)+spacing` spaces after every non-last cell of a non-empty
   * column, and `strings.Repeat` panics on a negative count.
   */
  predicate PadsFit(rows: seq<seq<string>>, spacing: int)
  {
    forall i, j :: 0 <= i < |rows| && 0 <= j < |rows[i]| - 1 && ColumnWidth(rows, j) > 0 ==>
      ColumnWidth(rows, j) - |rows[i][j]| + spacing >= 0
  }

  /** `n` spaces; none when `n` is not positive (a count `format` never asks for, see PadsFit). */
  function Spaces(n: int): (r: string)
    ensures |r| == (if n > 0 then n else 0)
    ensures forall k :: 0 <= k < |r| ==> r[k] == ' '
  {
    if n > 0 then Repeat(' ', n) else ""
  }

  /** Cell `j` of `row` as it appears in its line: nothing for an empty column, padding unless it is last. */
  function CellText(row: seq<string>, ws: seq<nat>, spacing: int, j: nat): string
    requires j < |row| && j < |ws|
  {
    if ws[j] == 0 then ""
    else if j < |row| - 1 then row[j] + Spaces(ws[j] - |row[j]| + spacing)
    else row[j]
  }

  /** The text of the first `n` cells of `row`. */
  function FormatCells(row: seq<string>, ws: seq<nat>, spacing: int, n: nat): string
    requires n <= |row| && |row| <= |ws|
  {
    if n == 0 then "" else FormatCells(row, ws, spacing, n - 1) + CellText(row, ws, spacing, n - 1)
  }

  /** The line of one row. */
  function FormatLine(row: seq<string>, ws: seq<nat>, spacing: int): string
    requires |row| <= |ws|
  {
    FormatCells(row, ws, spacing, |row|)
  }

  /** Every row is at most as long as the first one, so every cell has a column width. */
  predicate RowsFit(rows: seq<seq<string>>)
  {
    forall i :: 0 <= i < |rows| ==> |rows[i]| <= |rows[0]|
  }

  /** Every padding count of `row` is non-negative. */
  predicate RowPadsFit(row: seq<string>, ws: seq<nat>, spacing: int)
  {
    forall j :: 0 <= j < |row| - 1 && j < |ws| && ws[j] > 0 ==> ws[j] - |row[j]| + spacing >= 0
  }

  lemma PadsFitRows(rows: seq<seq<string>>, spacing: int)
    requires rows != [] && PadsFit(rows, spacing)
    ensures forall i :: 0 <= i < |rows| ==> RowPadsFit(rows[i], Widths(rows, |rows[0]|), spacing)
  {
  }

  /** The lines of all rows, one per row, before any cap. */
  function FormatLines(rows: seq<seq<string>>, spacing: int): (ls: seq<string>)
    requires rows != [] && RowsFit(rows)
    ensures |ls| == |rows|
  {
    seq(|rows|, i requires 0 <= i < |rows| => FormatLine(rows[i], Widths(rows, |rows[0]|), spacing))
  }

  /** A sequence holding the line of every row is the table's lines. */
  lemma FormatLinesFrom(ls: seq<string>, rows: seq<seq<string>>, spacing: int)
    requires rows != [] && RowsFit(rows) && |ls| == |rows|
    requires forall i :: 0 <= i < |rows| ==> ls[i] == FormatLine(rows[i], Widths(rows, |rows[0]|), spacing)
    ensures ls == FormatLines(rows, spacing)
  {
  }

  /**
   * What `format(maxLines, spacing)` returns: nothing for an empty table,
   * otherwise the row lines, capped at `maxLines` with a `[k more]` line.
   */
  function Formatted(rows: seq<seq<string>>, maxLines: int, spacing: int): (ls: seq<string>)
    requires RowsFit(rows)
    requires |rows| <= maxLines || maxLines >= 1
  {
    if rows == [] then [] else CapLines(FormatLines(rows, spacing), maxLines)
  }

  lemma FormattedLines(rows: seq<seq<string>>, maxLines: int, spacing: int)
    requires rows != [] && RowsFit(rows)
    requires |rows| <= maxLines || maxLines >= 1
    ensures Formatted(rows, maxLines, spacing) == CapLines(FormatLines(rows, spacing), maxLines)
  {
  }

  /** Overwriting element `m-1` and keeping the first `m` is keeping the first `m-1` and adding the new one. */
  lemma ReplaceThenCut<T>(a: seq<T>, m: int, x: T)
    requires 1 <= m <= |a|
    ensures a[m - 1 := x][..m] == a[..m - 1] + [x]
  {
    assert forall k :: 0 <= k < m - 1 ==> a[m - 1 := x][..m][k] == a[k];
  }

  /** Equal-length rows. */
  predicate Rectangular(rows: seq<seq<string>>)
  {
    forall i :: 0 <= i < |rows| ==> |rows[i]| == |rows[0]|
  }

  /** The first loop of `format`: the width of every column, in a new array. */
  method ColumnWidths(rows: seq<seq<string>>) returns (widths: array<nat>)
    requires rows != [] && RowsFit(rows)
    ensures fresh(widths) && widths[..] == Widths(rows, |rows[0]|)
  {
    var n := |rows[0]|;
    widths := new nat[n](_ => 0);
    var i := 0;
    while i < |rows|
      invariant 0 <= i <= |rows|
      invariant forall k :: 0 <= k < n ==> widths[k] == ColumnWidth(rows[..i], k)
    {
      var row := rows[i];
      assert rows[..i + 1][..i] == rows[..i];
      var j := 0;
      while j < |row|
        invariant 0 <= j <= |row| <= n
        invariant forall k :: 0 <= k < j ==> widths[k] == ColumnWidth(rows[..i + 1], k)
        invariant forall k :: j <= k < n ==> widths[k] == ColumnWidth(rows[..i], k)
      {
        var width := |row[j]|;
        if width > widths[j] {
          widths[j] := width;
        }
        j := j + 1;
      }
      i := i + 1;
    }
    assert rows[..|rows|] == rows;
  }

  /** The second loop of `format`: the line of every row, in a new array. */
  method FormatRows(rows: seq<seq<string>>, widths: array<nat>, spacing: int) returns (out: array<string>)
    requires forall k :: 0 <= k < |rows| ==> |rows[k]| <= widths.Length && RowPadsFit(rows[k], widths[..], spacing)
    ensures fresh(out) && out.Length == |rows|
    ensures forall k :: 0 <= k < |rows| ==> out[k] == FormatLine(rows[k], widths[..], spacing)
  {
    out := new string[|rows|](_ => "");
    var i := 0;
    while i < |rows|
      invariant 0 <= i <= |rows|
      invariant forall k :: 0 <= k < i ==> out[k] == FormatLine(rows[k], widths[..], spacing)
    {
      var line := FormatRow(rows[i], widths, spacing);
      out[i] := line;
      i := i + 1;
    }
  }

  /** The inner loop of `format`'s second loop: the text of one row. */
  method FormatRow(row: seq<string>, widths: array<nat>, spacing: int) returns (line: string)
    requires |row| <= widths.Length && RowPadsFit(row, widths[..], spacing)
    ensures line == FormatLine(row, widths[..], spacing)
  {
    ghost var ws := widths[..];
    line := "";
    var j := 0;
    while j < |row|
      invariant 0 <= j <= |row|
      invariant line == FormatCells(row, ws, spacing, j)
    {
      var width := widths[j];
      if width != 0 {
        var cell := row[j];
        if j < |row| - 1 {
          cell := cell + Repeat(' ', width - |row[j]| + spacing);
        }
        assert cell == CellText(row, ws, spacing, j);
        line := line + cell;
      } else {
        assert line + CellText(row, ws, spacing, j) == line;
      }
      j := j + 1;
    }
  }

  /** The two loops of `format`: the uncapped lines, in a new array. */
  method RowLines(rows: seq<seq<string>>, spacing: int) returns (out: array<string>)
    requires rows != [] && RowsFit(rows) && PadsFit(rows, spacing)
    ensures fresh(out) && out[..] == FormatLines(rows, spacing)
  {
    var widths := ColumnWidths(rows);
    PadsFitRows(rows, spacing);
    out := FormatRows(rows, widths, spacing);
    FormatLinesFrom(out[..], rows, spacing);
  }

  class Table {
    var rows: seq<seq<string>>

    /** `newTable`: a table without rows. */
    constructor ()
      ensures rows == []
    {
      rows := [];
    }

    /**
     * `appendRow`: a row of a different length than the first row is
     * refused (the source panics) and leaves the table as it was; any other
     * row is added at the end.
     */
    method AppendRow(row: seq<string>) returns (ok: bool)
      modifies this
      ensures ok <==> old(rows) == [] || |row| == |old(rows)[0]|
      ensures ok ==> rows == old(rows) + [row]
      ensures !ok ==> rows == old(rows)
      ensures old(Rectangular(rows)) ==> Rectangular(rows)
      ensures old(RowsFit(rows)) ==> RowsFit(rows)
    {
      if |rows| > 0 && |row| != |rows[0]| {
        return false;
      }
      rows := rows + [row];
      return true;
    }

    /**
     * `format(maxLines, spacing)`. The source indexes `widths` by the cells
     * of every row, so no row may be longer than the first; it overwrites
     * `lines[maxLines-1]` when there are more lines than `maxLines`, so
     * `maxLines` must then be positive; and no padding may be negative.
     */
    method Format(maxLines: int, spacing: int) returns (lines: seq<string>)
      requires RowsFit(rows) && PadsFit(rows, spacing)
      requires |rows| <= maxLines || maxLines >= 1
      ensures lines == Formatted(rows, maxLines, spacing)
    {
      if |rows| == 0 {
        return [];
      }
      var out := RowLines(rows, spacing);
      ghost var all := out[..];
      if out.Length > maxLines {
        var marker := MoreMarker(out.Length - maxLines + 1);
        assert marker == MoreMarker(|all| - maxLines + 1);
        out[maxLines - 1] := marker;
        assert out[..] == all[maxLines - 1 := marker];
        lines := out[..maxLines];
        ReplaceThenCut(all, maxLines, marker);
        assert lines == all[..maxLines - 1] + [marker];
      } else {
        lines := out[..];
      }
      FormattedLines(rows, maxLines, spacing);
    }
  }

  /**
   * The cap: at most `maxLines` lines come out, an empty table gives none;
   * within the cap there is one line per row, in row order; beyond it the
   * first `maxLines-1` row lines are kept and the last line counts the rows
   * it stands for.
   */
  lemma FormattedShape(rows: seq<seq<string>>, maxLines: int, spacing: int)
    requires RowsFit(rows)
    requires |rows| <= maxLines || maxLines >= 1
    ensures rows == [] ==> Formatted(rows, maxLines, spacing) == []
    ensures |rows| <= maxLines ==> |Formatted(rows, maxLines, spacing)| == |rows|
    ensures |rows| > maxLines ==> |Formatted(rows, maxLines, spacing)| == maxLines
    ensures forall i :: 0 <= i < |rows| && (|rows| <= maxLines || i < maxLines - 1) ==>
      Formatted(rows, maxLines, spacing)[i] == FormatLine(rows[i], Widths(rows, |rows[0]|), spacing)
    ensures |rows| > maxLines ==> Formatted(rows, maxLines, spacing)[maxLines - 1] == MoreMarker(|rows| - maxLines + 1)
  {
    if rows != [] {
      var all := FormatLines(rows, spacing);
      assert forall i :: 0 <= i < |rows| ==> all[i] == FormatLine(rows[i], Widths(rows, |rows[0]|), spacing);
      if |rows| > maxLines {
        assert forall i :: 0 <= i < maxLines - 1 ==> Formatted(rows, maxLines, spacing)[i] == all[..maxLines - 1][i];
      }
    }
  }

  /** A column has width 0 exactly when each of its cells is empty. */
  lemma ZeroWidthIffEmpty(rows: seq<seq<string>>, j: int)
    ensures ColumnWidth(rows, j) == 0 <==> forall i :: 0 <= i < |rows| && 0 <= j < |rows[i]| ==> rows[i][j] == ""
  {
    ColumnWidthIsMax(rows, j);
  }

  /** A column of width 0 adds neither text nor padding to a line. */
  lemma ZeroWidthSilent(row: seq<string>, ws: seq<nat>, spacing: int, j: nat)
    requires j < |row| <= |ws| && ws[j] == 0
    ensures FormatCells(row, ws, spacing, j + 1) == FormatCells(row, ws, spacing, j)
  {
    assert FormatCells(row, ws, spacing, j) + "" == FormatCells(row, ws, spacing, j);
  }

  /** Without negative spacing no padding count is ever negative. */
  lemma NonNegativeSpacingFits(rows: seq<seq<string>>, spacing: int)
    requires spacing >= 0
    ensures PadsFit(rows, spacing)
  {
    forall i, j | 0 <= i < |rows| && 0 <= j < |rows[i]| - 1 && ColumnWidth(rows, j) > 0
      ensures ColumnWidth(rows, j) - |rows[i][j]| + spacing >= 0
    {
      ColumnWidthIsMax(rows, j);
    }
  }

  /** Where column `j` starts: the widths of the non-empty columns before it, each plus the spacing. */
  function ColumnStart(ws: seq<nat>, spacing: int, j: nat): (c: int)
    requires j <= |ws|
    ensures spacing >= 0 ==> c >= 0
  {
    if j == 0 then 0 else ColumnStart(ws, spacing, j - 1) + (if ws[j - 1] == 0 then 0 else ws[j - 1] + spacing)
  }

  /** Every cell no wider than its column. */
  predicate CellsFit(row: seq<string>, ws: seq<nat>)
  {
    forall k :: 0 <= k < |row| && k < |ws| ==> |row[k]| <= ws[k]
  }

  /** The cells before a non-last cell `j` take exactly ColumnStart code points, whatever their text. */
  lemma {:induction false} CellsBeforeWidth(row: seq<string>, ws: seq<nat>, spacing: int, j: nat)
    requires j < |row| <= |ws| && spacing >= 0 && CellsFit(row, ws)
    ensures |FormatCells(row, ws, spacing, j)| == ColumnStart(ws, spacing, j)
  {
    if j > 0 {
      CellsBeforeWidth(row, ws, spacing, j - 1);
    }
  }

  /** Formatting fewer cells gives a prefix of formatting more. */
  lemma {:induction false} FormatCellsPrefix(row: seq<string>, ws: seq<nat>, spacing: int, n: nat, m: nat)
    requires n <= m <= |row| <= |ws|
    ensures FormatCells(row, ws, spacing, n) <= FormatCells(row, ws, spacing, m)
  {
    if n < m {
      FormatCellsPrefix(row, ws, spacing, n, m - 1);
    }
  }

  /**
   * Columns line up: in the line of every row of a table, the text of cell
   * `j` (the cell, then its padding) comes right after ColumnStart code
   * points, an offset that depends on the column widths alone.
   */
  lemma ColumnsLineUp(rows: seq<seq<string>>, spacing: int, i: int, j: nat)
    requires RowsFit(rows) && spacing >= 0 && 0 <= i < |rows| && j < |rows[i]|
    ensures var ws := Widths(rows, |rows[0]|); var before := FormatCells(rows[i], ws, spacing, j);
      |before| == ColumnStart(ws, spacing, j) &&
      before + CellText(rows[i], ws, spacing, j) <= FormatLines(rows, spacing)[i]
  {
    var ws := Widths(rows, |rows[0]|);
    forall k | 0 <= k < |rows[i]| && k < |ws| ensures |rows[i][k]| <= ws[k] {
      ColumnWidthIsMax(rows, k);
    }
    CellsBeforeWidth(rows[i], ws, spacing, j);
    FormatCellsPrefix(rows[i], ws, spacing, j + 1, |rows[i]|);
  }

  /** The last cell of a row gets no padding: a line ends with it when its column is not empty. */
  lemma LastCellUnpadded(row: seq<string>, ws: seq<nat>, spacing: int)
    requires 0 < |row| <= |ws| && ws[|row| - 1] > 0
    ensures var line := FormatLine(row, ws, spacing); var last := row[|row| - 1];
      |last| <= |line| && line[|line| - |last|..] == last
  {
    var last := row[|row| - 1];
    var line := FormatLine(row, ws, spacing);
    assert line == FormatCells(row, ws, spacing, |row| - 1) + last;
  }
}
