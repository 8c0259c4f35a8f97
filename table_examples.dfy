/** The cases of table_test.go that table.go's `format` handles, stated about `TableFormat.Formatted`. */
module TableExamples {
  import opened Fmt
  import opened TableFormat

  lemma SpacesExamples()
    ensures Spaces(1) == " " && Spaces(2) == "  " && Spaces(3) == "   "
  {
    assert Repeat(' ', 1) == " ";
    assert Repeat(' ', 2) == "  ";
    assert Repeat(' ', 3) == "   ";
  }

  /** The width of a column of a two-row table: the longer of its two cells, a missing cell counting as empty. */
  lemma ColumnWidthOfTwo(a: seq<string>, b: seq<string>, j: int)
    ensures var x := if 0 <= j < |a| then |a[j]| else 0; var y := if 0 <= j < |b| then |b[j]| else 0;
      ColumnWidth([a, b], j) == if y > x then y else x
  {
    var x := if 0 <= j < |a| then |a[j]| else 0;
    assert [a][..0] == [];
    assert ColumnWidth([a], j) == x;
    assert [a, b][..1] == [a];
  }

  /** A two-row table whose widths and lines are known formats to those lines. */
  lemma FormattedTwoRows(rows: seq<seq<string>>, spacing: int, ws: seq<nat>, l0: string, l1: string)
    requires |rows| == 2 && |rows[1]| <= |rows[0]| && Widths(rows, |rows[0]|) == ws
    requires FormatLine(rows[0], ws, spacing) == l0 && FormatLine(rows[1], ws, spacing) == l1
    ensures Formatted(rows, 10, spacing) == [l0, l1]
  {
    FormatLinesFrom([l0, l1], rows, spacing);
    FormattedLines(rows, 10, spacing);
  }

  /** Two columns with spacing 2: the first padded to its widest cell, the last unpadded. */
  lemma TwoColumnsExample()
    ensures Formatted([["ab", "foo"], ["c", "barber"]], 10, 2) == ["ab  foo", "c   barber"]
  {
    ColumnWidthOfTwo(["ab", "foo"], ["c", "barber"], 0);
    ColumnWidthOfTwo(["ab", "foo"], ["c", "barber"], 1);
    assert Widths([["ab", "foo"], ["c", "barber"]], 2) == [2, 6];
    SpacesExamples();
    assert FormatLine(["ab", "foo"], [2, 6], 2) == "ab" + Spaces(2) + "foo";
    assert FormatLine(["c", "barber"], [2, 6], 2) == "c" + Spaces(3) + "barber";
    FormattedTwoRows([["ab", "foo"], ["c", "barber"]], 2, [2, 6], "ab  foo", "c   barber");
  }

  /** An empty table gives no lines, whatever the cap. */
  lemma EmptyTableExample()
    ensures Formatted([], 0, 2) == []
  {
  }

  /** A row shorter than the first one simply has fewer cells; its last cell is unpadded. */
  lemma ShortRowExample()
    ensures Formatted([["first", "second"], ["first"]], 10, 1) == ["first second", "first"]
  {
    ColumnWidthOfTwo(["first", "second"], ["first"], 0);
    ColumnWidthOfTwo(["first", "second"], ["first"], 1);
    assert Widths([["first", "second"], ["first"]], 2) == [5, 6];
    SpacesExamples();
    assert FormatLine(["first", "second"], [5, 6], 1) == "first" + Spaces(1) + "second";
    assert FormatLine(["first"], [5, 6], 1) == "first";
    FormattedTwoRows([["first", "second"], ["first"]], 1, [5, 6], "first second", "first");
  }

  /** A column of empty cells leaves no trace. */
  lemma EmptyColumnExample()
    ensures Formatted([["", "has empty column"], ["", "second"]], 10, 2) == ["has empty column", "second"]
  {
    ColumnWidthOfTwo(["", "has empty column"], ["", "second"], 0);
    ColumnWidthOfTwo(["", "has empty column"], ["", "second"], 1);
    assert Widths([["", "has empty column"], ["", "second"]], 2) == [0, 16];
    assert FormatLine(["", "has empty column"], [0, 16], 2) == "has empty column";
    assert FormatLine(["", "second"], [0, 16], 2) == "second";
    FormattedTwoRows([["", "has empty column"], ["", "second"]], 2, [0, 16], "has empty column", "second");
  }

  /**
   * An empty LAST column still leaves the padding of the column before it,
   * since that cell is not the row's last: `format` skips the empty column
   * but pads cell 0 all the same.
   */
  lemma EmptyLastColumnExample()
    ensures Formatted([["a", ""], ["bb", ""]], 10, 2) == ["a   ", "bb  "]
  {
    ColumnWidthOfTwo(["a", ""], ["bb", ""], 0);
    ColumnWidthOfTwo(["a", ""], ["bb", ""], 1);
    assert Widths([["a", ""], ["bb", ""]], 2) == [2, 0];
    SpacesExamples();
    assert FormatLine(["a", ""], [2, 0], 2) == "a" + Spaces(3);
    assert FormatLine(["bb", ""], [2, 0], 2) == "bb" + Spaces(2);
    FormattedTwoRows([["a", ""], ["bb", ""]], 2, [2, 0], "a   ", "bb  ");
  }

  /** Three rows capped at two lines: the first row, then a line standing for the other two. */
  lemma CapExample()
    ensures Formatted([["a"], ["b"], ["c"]], 2, 2) == ["a", "[2 more]"]
  {
    var rows := [["a"], ["b"], ["c"]];
    assert ColumnWidth([["a"]], 0) == 1;
    assert ColumnWidth([["a"], ["b"]], 0) == 1;
    assert rows[..2] == [["a"], ["b"]];
    assert ColumnWidth(rows, 0) == 1;
    assert Widths(rows, 1) == [1];
    assert FormatLine(["a"], [1], 2) == "a";
    assert FormatLine(["b"], [1], 2) == "b";
    assert FormatLine(["c"], [1], 2) == "c";
    FormatLinesFrom(["a", "b", "c"], rows, 2);
    FormattedLines(rows, 2, 2);
    assert Digit(2) == '2';
    assert Itoa(2) == "2";
    assert MoreMarker(2) == "[2 more]";
    assert CapLines(["a", "b", "c"], 2) == ["a", "[2 more]"];
  }
}
