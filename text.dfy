/**
 * text.go: the plain-text output of the tool. A writer is modelled by the
 * sequence of lines written to it, one element per `Fprintln`, without the
 * line terminators.
 *
 * Two collaborators are parameters: `urlPath` and `formatTable`, which
 * lays out a table of cells as lines under a list of options.
 */
module Text {
  import opened Fmt
  import opened StrUtil
  import opened Reports

  /** Length of the `=` divider written before each report. */
  const ReportDividerLen: nat := 80

  /** Length of the `-` underline written below each category name. */
  const CatUnderlineLen: nat := 20

  /** Which audits are listed under each category: all, only the failed ones, or none. */
  datatype AuditFilter = AuditsAll | AuditsFailed | AuditsNone

  /** The settings the text output depends on. */
  datatype ReportConfig = ReportConfig(fullURLs: bool, audits: AuditFilter, maxDetails: int, detailWidth: int)

  /** An option of `formatTable`: column spacing, a right-aligned column, or a cap on the number of lines. */
  datatype TableOpt = Spacing(n: int) | RightCol(col: int) | MaxLines(n: int)

  /** `urlPath` and `formatTable`, which are not part of this model. */
  datatype Env = Env(urlPath: string -> string, formatTable: (seq<seq<string>>, seq<TableOpt>) -> seq<string>)

  // ---------------------------------------------------------------------
  // writeSummary
  // ---------------------------------------------------------------------

  /** Index of the first report that has categories, or the number of reports when none has. */
  function FirstWithCategories(reps: seq<Report>): (i: nat)
    ensures i <= |reps|
    ensures i < |reps| ==> |reps[i].categories| > 0
    ensures forall m :: 0 <= m < i ==> |reps[m].categories| == 0
  {
    if reps == [] then 0
    else if |reps[0].categories| > 0 then 0
    else 1 + FirstWithCategories(reps[1..])
  }

  /** The abbreviations of `cats`, in order. */
  function Abbrevs(cats: seq<Category>): seq<string>
  {
    if cats == [] then [] else Abbrevs(cats[..|cats| - 1]) + [cats[|cats| - 1].abbrev]
  }

  lemma {:induction false} AbbrevsAt(cats: seq<Category>)
    ensures |Abbrevs(cats)| == |cats|
    ensures forall i :: 0 <= i < |cats| ==> Abbrevs(cats)[i] == cats[i].abbrev
  {
    if cats != [] {
      var front := cats[..|cats| - 1];
      AbbrevsAt(front);
      assert forall i :: 0 <= i < |front| ==> front[i] == cats[i];
    }
  }

  /** The scores of `cats` in decimal, in order. */
  function Scores(cats: seq<Category>): seq<string>
  {
    if cats == [] then [] else Scores(cats[..|cats| - 1]) + [Itoa(cats[|cats| - 1].score)]
  }

  lemma {:induction false} ScoresAt(cats: seq<Category>)
    ensures |Scores(cats)| == |cats|
    ensures forall i :: 0 <= i < |cats| ==> Scores(cats)[i] == Itoa(cats[i].score)
  {
    if cats != [] {
      var front := cats[..|cats| - 1];
      ScoresAt(front);
      assert forall i :: 0 <= i < |front| ==> front[i] == cats[i];
    }
  }

  /** Right alignment for columns 1 to `n`. */
  function RightCols(n: nat): seq<TableOpt>
  {
    if n == 0 then [] else RightCols(n - 1) + [RightCol(n)]
  }

  lemma {:induction false} RightColsAt(n: nat)
    ensures |RightCols(n)| == n
    ensures forall i :: 0 <= i < n ==> RightCols(n)[i] == RightCol(i + 1)
  {
    if n > 0 {
      RightColsAt(n - 1);
    }
  }

  /** The summary heading: "URL", then the abbreviations of the first report that has categories. */
  function SummaryHeading(reps: seq<Report>): seq<string>
  {
    var i := FirstWithCategories(reps);
    if i < |reps| then ["URL"] + Abbrevs(reps[i].categories) else ["URL"]
  }

  /** The table options of the summary: spacing 2, and every score column right-aligned. */
  function SummaryOpts(reps: seq<Report>): seq<TableOpt>
  {
    var i := FirstWithCategories(reps);
    if i < |reps| then [Spacing(2)] + RightCols(|reps[i].categories|) else [Spacing(2)]
  }

  /** The summary row of one report: its URL or URL path, then its category scores. */
  function SummaryRow(rep: Report, cfg: ReportConfig, env: Env): seq<string>
  {
    [if cfg.fullURLs then rep.url else env.urlPath(rep.url)] + Scores(rep.categories)
  }

  /** One summary row per report, in order. */
  function SummaryBody(reps: seq<Report>, cfg: ReportConfig, env: Env): seq<seq<string>>
  {
    if reps == [] then []
    else SummaryBody(reps[..|reps| - 1], cfg, env) + [SummaryRow(reps[|reps| - 1], cfg, env)]
  }

  lemma {:induction false} SummaryBodyAt(reps: seq<Report>, cfg: ReportConfig, env: Env)
    ensures |SummaryBody(reps, cfg, env)| == |reps|
    ensures forall r :: 0 <= r < |reps| ==> SummaryBody(reps, cfg, env)[r] == SummaryRow(reps[r], cfg, env)
  {
    if reps != [] {
      var front := reps[..|reps| - 1];
      SummaryBodyAt(front, cfg, env);
      assert forall r :: 0 <= r < |front| ==> front[r] == reps[r];
    }
  }

  /** The table `writeSummary` lays out: the heading row and then one row per report. */
  function SummaryRows(reps: seq<Report>, cfg: ReportConfig, env: Env): seq<seq<string>>
  {
    [SummaryHeading(reps)] + SummaryBody(reps, cfg, env)
  }

  /** What `writeSummary` writes. */
  function Summary(reps: seq<Report>, cfg: ReportConfig, env: Env): seq<string>
  {
    env.formatTable(SummaryRows(reps, cfg, env), SummaryOpts(reps))
  }

  /** Builds the summary row of one report. */
  method SummaryRowOf(rep: Report, cfg: ReportConfig, env: Env) returns (row: seq<string>)
    ensures row == SummaryRow(rep, cfg, env)
  {
    row := [];
    if cfg.fullURLs {
      row := row + [rep.url];
    } else {
      row := row + [env.urlPath(rep.url)];
    }
    ghost var first := row;
    var i := 0;
    while i < |rep.categories|
      invariant 0 <= i <= |rep.categories|
      invariant row == first + Scores(rep.categories[..i])
    {
      assert rep.categories[..i + 1][..i] == rep.categories[..i];
      row := row + [Itoa(rep.categories[i].score)];
      i := i + 1;
    }
    assert rep.categories[..i] == rep.categories;
  }

  /** The heading and options built from the categories of one report. */
  method CategoryColumns(cats: seq<Category>) returns (heading: seq<string>, opts: seq<TableOpt>)
    ensures heading == ["URL"] + Abbrevs(cats)
    ensures opts == [Spacing(2)] + RightCols(|cats|)
  {
    heading := ["URL"];
    opts := [Spacing(2)];
    var i := 0;
    while i < |cats|
      invariant 0 <= i <= |cats|
      invariant heading == ["URL"] + Abbrevs(cats[..i]) && opts == [Spacing(2)] + RightCols(i)
    {
      assert cats[..i + 1][..i] == cats[..i];
      heading := heading + [cats[i].abbrev];
      opts := opts + [RightCol(i + 1)];
      i := i + 1;
    }
    assert cats[..i] == cats;
  }

  /** The first loop of `writeSummary`: the heading comes from the first report that has categories. */
  method SummaryColumns(reps: seq<Report>) returns (heading: seq<string>, opts: seq<TableOpt>)
    ensures heading == SummaryHeading(reps) && opts == SummaryOpts(reps)
  {
    heading := ["URL"];
    opts := [Spacing(2)];
    var r := 0;
    while r < |reps|
      invariant 0 <= r <= |reps|
      invariant forall m :: 0 <= m < r ==> |reps[m].categories| == 0
    {
      if |reps[r].categories| > 0 {
        heading, opts := CategoryColumns(reps[r].categories);
        assert FirstWithCategories(reps) == r;
        return;
      }
      r := r + 1;
    }
  }

  /** `writeSummary`: the lines of the score table. */
  method WriteSummary(reps: seq<Report>, cfg: ReportConfig, env: Env) returns (lines: seq<string>)
    ensures lines == Summary(reps, cfg, env)
  {
    var heading, opts := SummaryColumns(reps);
    var rows := [heading];
    var k := 0;
    while k < |reps|
      invariant 0 <= k <= |reps|
      invariant rows == [heading] + SummaryBody(reps[..k], cfg, env)
    {
      assert reps[..k + 1][..k] == reps[..k];
      var row := SummaryRowOf(reps[k], cfg, env);
      rows := rows + [row];
      k := k + 1;
    }
    assert reps[..k] == reps;
    lines := env.formatTable(rows, opts);
  }

  /**
   * The summary table: the heading row and then, per report in order, its
   * full URL (or URL path) and its scores; a report without categories gets
   * a row with the URL alone.
   */
  lemma SummaryShape(reps: seq<Report>, cfg: ReportConfig, env: Env)
    ensures var rows := SummaryRows(reps, cfg, env);
      && |rows| == |reps| + 1 && rows[0] == SummaryHeading(reps)
      && forall r :: 0 <= r < |reps| ==> rows[r + 1] == SummaryRow(reps[r], cfg, env)
  {
    SummaryBodyAt(reps, cfg, env);
  }

  /** A summary row: the URL cell, then one decimal score per category. */
  lemma SummaryRowCells(rep: Report, cfg: ReportConfig, env: Env)
    ensures var row := SummaryRow(rep, cfg, env);
      && |row| == 1 + |rep.categories|
      && row[0] == (if cfg.fullURLs then rep.url else env.urlPath(rep.url))
      && forall c :: 0 <= c < |rep.categories| ==> row[c + 1] == Itoa(rep.categories[c].score)
  {
    ScoresAt(rep.categories);
  }

  /**
   * The heading row and options: "URL" and the abbreviations of the first
   * report that has categories, each of those columns right-aligned; only
   * "URL" and the spacing when no report has categories.
   */
  lemma SummaryHeadingCells(reps: seq<Report>)
    ensures var h := SummaryHeading(reps); var o := SummaryOpts(reps); var i := FirstWithCategories(reps);
      && h[0] == "URL" && o[0] == Spacing(2)
      && (i == |reps| ==> |h| == 1 && |o| == 1)
      && (i < |reps| ==>
        var cats := reps[i].categories;
        && |h| == 1 + |cats| && |o| == 1 + |cats|
        && forall c :: 0 <= c < |cats| ==> h[c + 1] == cats[c].abbrev && o[c + 1] == RightCol(c + 1))
  {
    var i := FirstWithCategories(reps);
    if i < |reps| {
      AbbrevsAt(reps[i].categories);
      RightColsAt(|reps[i].categories|);
    }
  }

  // ---------------------------------------------------------------------
  // writeReport and writeReports
  // ---------------------------------------------------------------------

  /** True when the configured filter lists `a`: the failed filter drops unscored and perfect audits. */
  predicate AuditShown(a: Audit, cfg: ReportConfig)
  {
    !(cfg.audits == AuditsFailed && (a.score < 0 || a.score == 100))
  }

  /** The score field of an audit line: `%3d`, or "  ." for an audit without a score. */
  function ScoreField(score: int): string
  {
    if score >= 0 then Int3(score) else "  ."
  }

  /** The line of one audit: score field, title, and ": value" when the value is not empty. */
  function AuditLine(a: Audit): string
  {
    ScoreField(a.score) + " " + a.title + (if a.value != "" then ": " + a.value else "")
  }

  /** True when the details of `a` are written: there are some, and details are not switched off. */
  predicate ShowsDetails(a: Audit, cfg: ReportConfig)
  {
    |a.details| > 0 && cfg.maxDetails != 0
  }

  /** Every cell of `row` elided to `width`. */
  function ElideRow(row: seq<string>, width: int): seq<string>
    requires width >= 1
  {
    if row == [] then [] else ElideRow(row[..|row| - 1], width) + [Elide(row[|row| - 1], width)]
  }

  /** Every cell of `details` elided to `width`. */
  function ElideCells(details: seq<seq<string>>, width: int): seq<seq<string>>
    requires width >= 1
  {
    if details == [] then []
    else ElideCells(details[..|details| - 1], width) + [ElideRow(details[|details| - 1], width)]
  }

  /** The audit as `writeReport` leaves it: its detail cells elided when it was listed with details. */
  function ElidedAudit(a: Audit, cfg: ReportConfig): Audit
  {
    if AuditShown(a, cfg) && ShowsDetails(a, cfg) && cfg.detailWidth > 0
    then a.(details := ElideCells(a.details, cfg.detailWidth))
    else a
  }

  /** Formatted detail lines after the cap: with more than `maxDetails` (when positive), a `[k more]` line ends them. */
  function CapDetails(ls: seq<string>, maxDetails: int): seq<string>
  {
    if maxDetails > 0 && |ls| > maxDetails then CapLines(ls, maxDetails) else ls
  }

  /** Every line prefixed by four spaces. */
  function Indent(ls: seq<string>): seq<string>
  {
    if ls == [] then [] else Indent(ls[..|ls| - 1]) + ["    " + ls[|ls| - 1]]
  }

  lemma {:induction false} IndentAt(ls: seq<string>)
    ensures |Indent(ls)| == |ls|
    ensures forall k :: 0 <= k < |ls| ==> Indent(ls)[k] == "    " + ls[k]
  {
    if ls != [] {
      var front := ls[..|ls| - 1];
      IndentAt(front);
      assert forall k :: 0 <= k < |front| ==> front[k] == ls[k];
    }
  }

  /** The formatted detail lines of an audit, before the cap. */
  function DetailTable(a: Audit, cfg: ReportConfig, env: Env): seq<string>
  {
    env.formatTable(ElidedAudit(a, cfg).details, [Spacing(2)])
  }

  /** The detail lines written below an audit's line. */
  function DetailLines(a: Audit, cfg: ReportConfig, env: Env): seq<string>
  {
    if ShowsDetails(a, cfg) then Indent(CapDetails(DetailTable(a, cfg, env), cfg.maxDetails)) else []
  }

  /** What is written for one audit. */
  function AuditText(a: Audit, cfg: ReportConfig, env: Env): seq<string>
  {
    if AuditShown(a, cfg) then [AuditLine(a)] + DetailLines(a, cfg, env) else []
  }

  /** What is written for the audits of a category, in order. */
  function AuditsText(auds: seq<Audit>, cfg: ReportConfig, env: Env): seq<string>
  {
    if auds == [] then []
    else AuditsText(auds[..|auds| - 1], cfg, env) + AuditText(auds[|auds| - 1], cfg, env)
  }

  /** The audits of a category as `writeReport` leaves them. */
  function ElidedAudits(auds: seq<Audit>, cfg: ReportConfig): seq<Audit>
  {
    if auds == [] then [] else ElidedAudits(auds[..|auds| - 1], cfg) + [ElidedAudit(auds[|auds| - 1], cfg)]
  }

  /** The `%3d Title` line of a category. */
  function CategoryHeader(cat: Category): string
  {
    Int3(cat.score) + " " + cat.title
  }

  /** What is written for one category. */
  function CategoryText(cat: Category, cfg: ReportConfig, env: Env): seq<string>
  {
    if cfg.audits == AuditsNone then [CategoryHeader(cat)]
    else [CategoryHeader(cat), Repeat('-', CatUnderlineLen)] + AuditsText(cat.audits, cfg, env) + [""]
  }

  /** A category as `writeReport` leaves it; its audits are not visited when none are listed. */
  function ElidedCategory(cat: Category, cfg: ReportConfig): Category
  {
    if cfg.audits == AuditsNone then cat else cat.(audits := ElidedAudits(cat.audits, cfg))
  }

  function CategoriesText(cats: seq<Category>, cfg: ReportConfig, env: Env): seq<string>
  {
    if cats == [] then []
    else CategoriesText(cats[..|cats| - 1], cfg, env) + CategoryText(cats[|cats| - 1], cfg, env)
  }

  function ElidedCategories(cats: seq<Category>, cfg: ReportConfig): seq<Category>
  {
    if cats == [] then [] else ElidedCategories(cats[..|cats| - 1], cfg) + [ElidedCategory(cats[|cats| - 1], cfg)]
  }

  /** What `writeReport` writes: the URL, a blank line, then each category. */
  function ReportText(rep: Report, cfg: ReportConfig, env: Env): seq<string>
  {
    [rep.url, ""] + CategoriesText(rep.categories, cfg, env)
  }

  /** The report as `writeReport` leaves it. */
  function ElidedReport(rep: Report, cfg: ReportConfig): Report
  {
    rep.(categories := ElidedCategories(rep.categories, cfg))
  }

  /** The line of 80 `=` written before each report. */
  function Divider(): string
  {
    Repeat('=', ReportDividerLen)
  }

  /** What `writeReports` writes for one report: the divider, a blank line and the report. */
  function ReportBlock(rep: Report, cfg: ReportConfig, env: Env): seq<string>
  {
    [Divider(), ""] + ReportText(rep, cfg, env)
  }

  /** The blocks of the reports, in order. */
  function ReportBlocks(reps: seq<Report>, cfg: ReportConfig, env: Env): seq<seq<string>>
  {
    if reps == [] then [] else ReportBlocks(reps[..|reps| - 1], cfg, env) + [ReportBlock(reps[|reps| - 1], cfg, env)]
  }

  /** The lines of consecutive blocks. */
  function Flatten(blocks: seq<seq<string>>): seq<string>
  {
    if blocks == [] then [] else Flatten(blocks[..|blocks| - 1]) + blocks[|blocks| - 1]
  }

  /** What `writeReports` writes: the block of every report, one after the other. */
  function ReportsText(reps: seq<Report>, cfg: ReportConfig, env: Env): seq<string>
  {
    Flatten(ReportBlocks(reps, cfg, env))
  }

  function ElidedReports(reps: seq<Report>, cfg: ReportConfig): seq<Report>
  {
    if reps == [] then [] else ElidedReports(reps[..|reps| - 1], cfg) + [ElidedReport(reps[|reps| - 1], cfg)]
  }

  /** Replacing the element just after `a` in `a + b`. */
  lemma ReplaceFirst(a: seq<string>, b: seq<string>, x: string)
    requires |b| > 0
    ensures (a + b)[|a| := x] == a + [x] + b[1..]
  {
  }

  /** Replacing the row just after `a` in `a + b`. */
  lemma ReplaceFirstRow(a: seq<seq<string>>, b: seq<seq<string>>, x: seq<string>)
    requires |b| > 0
    ensures (a + b)[|a| := x] == a + [x] + b[1..]
  {
  }

  /** Elides one row in place, cell by cell. */
  method ElideRowInPlace(row: seq<string>, width: int) returns (out: seq<string>)
    requires width >= 1
    ensures out == ElideRow(row, width)
  {
    out := row;
    var j := 0;
    while j < |out|
      invariant 0 <= j <= |row| && |out| == |row|
      invariant out == ElideRow(row[..j], width) + row[j..]
    {
      var done := ElideRow(row[..j], width);
      var cell := Elide(row[j], width);
      assert row[..j + 1][..j] == row[..j];
      assert ElideRow(row[..j + 1], width) == done + [cell];
      assert out[j] == row[j];
      ReplaceFirst(done, row[j..], cell);
      assert row[j..][1..] == row[j + 1..];
      out := out[j := cell];
      j := j + 1;
    }
    assert row[..j] == row;
  }

  /** Elides every detail cell in place, row by row. */
  method ElideInPlace(details: seq<seq<string>>, width: int) returns (out: seq<seq<string>>)
    requires width >= 1
    ensures out == ElideCells(details, width)
  {
    out := details;
    var i := 0;
    while i < |out|
      invariant 0 <= i <= |details| && |out| == |details|
      invariant out == ElideCells(details[..i], width) + details[i..]
    {
      assert details[..i + 1][..i] == details[..i];
      var row := ElideRowInPlace(out[i], width);
      ReplaceFirstRow(ElideCells(details[..i], width), details[i..], row);
      assert details[i..][1..] == details[i + 1..];
      out := out[i := row];
      i := i + 1;
    }
    assert details[..i] == details;
  }

  /** Caps formatted detail lines in place: the last kept line becomes the `[k more]` marker. */
  method CapInPlace(ls: seq<string>, maxDetails: int) returns (details: seq<string>)
    ensures details == CapDetails(ls, maxDetails)
  {
    details := ls;
    if maxDetails > 0 && |details| > maxDetails {
      var marker := MoreMarker(|details| - maxDetails + 1);
      details := details[maxDetails - 1 := marker];
      assert details[..maxDetails - 1] == ls[..maxDetails - 1];
      details := details[..maxDetails];
      assert details == ls[..maxDetails - 1] + [marker];
    }
  }

  /** Writes each line after four spaces. */
  method WriteIndented(details: seq<string>) returns (lines: seq<string>)
    ensures lines == Indent(details)
  {
    lines := [];
    var k := 0;
    while k < |details|
      invariant 0 <= k <= |details|
      invariant lines == Indent(details[..k])
    {
      assert details[..k + 1][..k] == details[..k];
      lines := lines + ["    " + details[k]];
      k := k + 1;
    }
    assert details[..k] == details;
  }

  /** Builds the line of one audit. */
  method AuditLineOf(a: Audit) returns (ln: string)
    ensures ln == AuditLine(a)
  {
    ln := "";
    if a.score >= 0 {
      ln := ln + Int3(a.score);
    } else {
      ln := ln + "  .";
    }
    assert ln == ScoreField(a.score);
    ln := ln + " " + a.title;
    ghost var head := ln;
    if a.value != "" {
      ln := ln + ": " + a.value;
      assert ln == head + (": " + a.value);
    }
  }

  /** One iteration of the audit loop of `writeReport`: the lines for `a` and `a` as it is left. */
  method WriteAudit(a: Audit, cfg: ReportConfig, env: Env) returns (lines: seq<string>, out: Audit)
    ensures lines == AuditText(a, cfg, env)
    ensures out == ElidedAudit(a, cfg)
  {
    out := a;
    if cfg.audits == AuditsFailed && (a.score < 0 || a.score == 100) {
      return [], out;
    }
    var ln := AuditLineOf(a);
    lines := [ln];
    if |a.details| > 0 && cfg.maxDetails != 0 {
      if cfg.detailWidth > 0 {
        var elided := ElideInPlace(a.details, cfg.detailWidth);
        out := a.(details := elided);
      }
      var details := env.formatTable(out.details, [Spacing(2)]);
      details := CapInPlace(details, cfg.maxDetails);
      var detailLines := WriteIndented(details);
      lines := lines + detailLines;
    }
  }

  /** The audit loop of `writeReport` over one category's audits. */
  method WriteAudits(auds: seq<Audit>, cfg: ReportConfig, env: Env) returns (lines: seq<string>, out: seq<Audit>)
    ensures lines == AuditsText(auds, cfg, env)
    ensures out == ElidedAudits(auds, cfg)
  {
    lines := [];
    out := [];
    var k := 0;
    while k < |auds|
      invariant 0 <= k <= |auds|
      invariant lines == AuditsText(auds[..k], cfg, env)
      invariant out == ElidedAudits(auds[..k], cfg)
    {
      assert auds[..k + 1][..k] == auds[..k];
      var ls, aud := WriteAudit(auds[k], cfg, env);
      lines := lines + ls;
      out := out + [aud];
      k := k + 1;
    }
    assert auds[..k] == auds;
  }

  /** One iteration of the category loop of `writeReport`. */
  method WriteCategory(cat: Category, cfg: ReportConfig, env: Env) returns (lines: seq<string>, out: Category)
    ensures lines == CategoryText(cat, cfg, env)
    ensures out == ElidedCategory(cat, cfg)
  {
    lines := [Int3(cat.score) + " " + cat.title];
    out := cat;
    if cfg.audits == AuditsNone {
      return;
    }
    lines := lines + [Repeat('-', CatUnderlineLen)];
    var ls, auds := WriteAudits(cat.audits, cfg, env);
    lines := lines + ls;
    lines := lines + [""];
    out := cat.(audits := auds);
  }

  /** The category loop of `writeReport`. */
  method WriteCategories(cats: seq<Category>, cfg: ReportConfig, env: Env) returns (lines: seq<string>, out: seq<Category>)
    ensures lines == CategoriesText(cats, cfg, env)
    ensures out == ElidedCategories(cats, cfg)
  {
    lines := [];
    out := [];
    var i := 0;
    while i < |cats|
      invariant 0 <= i <= |cats|
      invariant lines == CategoriesText(cats[..i], cfg, env)
      invariant out == ElidedCategories(cats[..i], cfg)
    {
      assert cats[..i + 1][..i] == cats[..i];
      var ls, cat := WriteCategory(cats[i], cfg, env);
      lines := lines + ls;
      out := out + [cat];
      i := i + 1;
    }
    assert cats[..i] == cats;
  }

  /**
   * `writeReport`: the lines written for `rep`, and `rep` as the call leaves
   * it, since the detail cells are elided in place.
   */
  method WriteReport(rep: Report, cfg: ReportConfig, env: Env) returns (lines: seq<string>, out: Report)
    ensures lines == ReportText(rep, cfg, env)
    ensures out == ElidedReport(rep, cfg)
  {
    lines := [rep.url, ""];
    var ls, cats := WriteCategories(rep.categories, cfg, env);
    lines := lines + ls;
    out := rep.(categories := cats);
  }

  /** `writeReports`: every report after a divider and a blank line, in order. */
  method WriteReports(reps: seq<Report>, cfg: ReportConfig, env: Env) returns (lines: seq<string>, out: seq<Report>)
    ensures lines == ReportsText(reps, cfg, env)
    ensures out == ElidedReports(reps, cfg)
  {
    lines := [];
    out := [];
    var i := 0;
    while i < |reps|
      invariant 0 <= i <= |reps|
      invariant lines == Flatten(ReportBlocks(reps[..i], cfg, env))
      invariant out == ElidedReports(reps[..i], cfg)
    {
      assert reps[..i + 1][..i] == reps[..i];
      ghost var blocks := ReportBlocks(reps[..i], cfg, env);
      ghost var block := ReportBlock(reps[i], cfg, env);
      assert ReportBlocks(reps[..i + 1], cfg, env) == blocks + [block];
      assert (blocks + [block])[..|blocks|] == blocks;
      lines := lines + [Repeat('=', ReportDividerLen), ""];
      var ls, rep := WriteReport(reps[i], cfg, env);
      lines := lines + ls;
      out := out + [rep];
      i := i + 1;
    }
    assert reps[..i] == reps;
  }

  // ---------------------------------------------------------------------
  // Properties of the report text
  // ---------------------------------------------------------------------

  /** An audit line starts with its score field, whose third character is a digit exactly when the audit has a score. */
  lemma AuditLineMarks(a: Audit)
    ensures var ln := AuditLine(a);
      && |ln| >= 4 && ln[..|ScoreField(a.score)|] == ScoreField(a.score)
      && (ln[2] == '.' <==> a.score < 0)
      && (a.score >= 0 ==> IsDigit(ln[2]))
  {
    var f := ScoreField(a.score);
    if a.score >= 0 {
      Int3ThirdIsDigit(a.score);
    }
    assert AuditLine(a) == f + (" " + a.title + (if a.value != "" then ": " + a.value else ""));
    assert AuditLine(a)[2] == f[2];
  }

  /**
   * The failed filter drops exactly the audits without a score and the
   * perfect ones; every listed audit starts with its audit line.
   */
  lemma FailedFilter(a: Audit, cfg: ReportConfig, env: Env)
    ensures cfg.audits == AuditsFailed ==> (AuditText(a, cfg, env) == [] <==> a.score < 0 || a.score == 100)
    ensures cfg.audits != AuditsFailed ==> AuditText(a, cfg, env) != []
    ensures AuditText(a, cfg, env) != [] ==> AuditText(a, cfg, env)[0] == AuditLine(a)
  {
  }

  /**
   * The detail lines: none when switched off or empty; otherwise every
   * formatted line indented by four spaces, and with a positive cap at
   * most that many, the last one replaced by `[k more]` for the `k` lines
   * not shown plus the replaced one.
   */
  lemma DetailLinesCapped(a: Audit, cfg: ReportConfig, env: Env)
    ensures !ShowsDetails(a, cfg) ==> DetailLines(a, cfg, env) == []
    ensures ShowsDetails(a, cfg) ==>
      var ls := DetailTable(a, cfg, env); var out := DetailLines(a, cfg, env);
      && (cfg.maxDetails < 0 || |ls| <= cfg.maxDetails ==>
           |out| == |ls| && forall k :: 0 <= k < |ls| ==> out[k] == "    " + ls[k])
      && (0 < cfg.maxDetails < |ls| ==>
           && |out| == cfg.maxDetails
           && (forall k :: 0 <= k < cfg.maxDetails - 1 ==> out[k] == "    " + ls[k])
           && out[cfg.maxDetails - 1] == "    " + MoreMarker(|ls| - cfg.maxDetails + 1))
  {
    if ShowsDetails(a, cfg) {
      var ls := DetailTable(a, cfg, env);
      var capped := CapDetails(ls, cfg.maxDetails);
      IndentAt(capped);
      if 0 < cfg.maxDetails < |ls| {
        assert forall k :: 0 <= k < cfg.maxDetails - 1 ==> capped[k] == capped[..cfg.maxDetails - 1][k];
      }
    }
  }

  lemma {:induction false} ElideRowLength(row: seq<string>, width: int)
    requires width >= 1
    ensures |ElideRow(row, width)| == |row|
  {
    if row != [] {
      ElideRowLength(row[..|row| - 1], width);
    }
  }

  lemma {:induction false} ElideRowIndex(row: seq<string>, width: int, j: nat)
    requires width >= 1 && j < |row|
    ensures |ElideRow(row, width)| == |row| && ElideRow(row, width)[j] == Elide(row[j], width)
  {
    var front := row[..|row| - 1];
    var last := Elide(row[|row| - 1], width);
    ElideRowLength(row, width);
    ElideRowLength(front, width);
    assert ElideRow(row, width) == ElideRow(front, width) + [last];
    if j < |front| {
      ElideRowIndex(front, width, j);
      assert front[j] == row[j];
      assert ElideRow(row, width)[j] == ElideRow(front, width)[j];
    } else {
      assert ElideRow(row, width)[j] == last;
    }
  }

  lemma ElideRowAt(row: seq<string>, width: int)
    requires width >= 1
    ensures |ElideRow(row, width)| == |row|
    ensures forall j :: 0 <= j < |row| ==> ElideRow(row, width)[j] == Elide(row[j], width)
  {
    ElideRowLength(row, width);
    forall j | 0 <= j < |row| ensures ElideRow(row, width)[j] == Elide(row[j], width) {
      ElideRowIndex(row, width, j);
    }
  }

  lemma {:induction false} ElideCellsAt(details: seq<seq<string>>, width: int)
    requires width >= 1
    ensures |ElideCells(details, width)| == |details|
    ensures forall i :: 0 <= i < |details| ==> ElideCells(details, width)[i] == ElideRow(details[i], width)
  {
    if details != [] {
      var front := details[..|details| - 1];
      ElideCellsAt(front, width);
      assert forall i :: 0 <= i < |front| ==> front[i] == details[i];
    }
  }

  /**
   * Elision keeps the shape of the details and elides every cell on its own:
   * no cell is left longer than the width, and a cell that fits is kept.
   */
  lemma ElidedCellsBounded(details: seq<seq<string>>, width: int, i: nat, j: nat)
    requires width >= 1 && i < |details| && j < |details[i]|
    ensures var e := ElideCells(details, width);
      && |e| == |details| && |e[i]| == |details[i]|
      && e[i][j] == Elide(details[i][j], width)
      && |e[i][j]| <= width
      && (e[i][j] == details[i][j] <==> |details[i][j]| <= width)
  {
    ElideCellsAt(details, width);
    ElideRowAt(details[i], width);
    ElideBounded(details[i][j], width);
  }

  /** Eliding an elided row again changes nothing. */
  lemma {:induction false} ElideRowIdempotent(row: seq<string>, width: int)
    requires width >= 1
    ensures ElideRow(ElideRow(row, width), width) == ElideRow(row, width)
  {
    var e := ElideRow(row, width);
    ElideRowAt(row, width);
    ElideRowAt(e, width);
    forall j | 0 <= j < |row| ensures ElideRow(e, width)[j] == e[j] {
      ElideIdempotent(row[j], width);
    }
  }

  /** Eliding elided details again changes nothing. */
  lemma {:induction false} ElideCellsIdempotent(details: seq<seq<string>>, width: int)
    requires width >= 1
    ensures ElideCells(ElideCells(details, width), width) == ElideCells(details, width)
  {
    var e := ElideCells(details, width);
    ElideCellsAt(details, width);
    ElideCellsAt(e, width);
    forall i | 0 <= i < |details| ensures ElideCells(e, width)[i] == e[i] {
      ElideRowIdempotent(details[i], width);
    }
  }

  /**
   * Writing an audit leaves its title, score and value alone and only
   * elides its detail cells; writing the audit left behind again prints
   * the same lines and leaves it as it is.
   */
  lemma ElidedAuditStable(a: Audit, cfg: ReportConfig, env: Env)
    ensures var e := ElidedAudit(a, cfg);
      && e.title == a.title && e.score == a.score && e.value == a.value
      && |e.details| == |a.details|
      && ElidedAudit(e, cfg) == e
      && AuditText(e, cfg, env) == AuditText(a, cfg, env)
  {
    if AuditShown(a, cfg) && ShowsDetails(a, cfg) && cfg.detailWidth > 0 {
      ElideCellsAt(a.details, cfg.detailWidth);
      ElideCellsIdempotent(a.details, cfg.detailWidth);
    }
  }

  /** The same for the audits of a category. */
  lemma {:induction false} ElidedAuditsStable(auds: seq<Audit>, cfg: ReportConfig, env: Env)
    ensures ElidedAudits(ElidedAudits(auds, cfg), cfg) == ElidedAudits(auds, cfg)
    ensures AuditsText(ElidedAudits(auds, cfg), cfg, env) == AuditsText(auds, cfg, env)
  {
    if auds != [] {
      var front := auds[..|auds| - 1];
      var e := ElidedAudits(auds, cfg);
      ElidedAuditsStable(front, cfg, env);
      ElidedAuditStable(auds[|auds| - 1], cfg, env);
      assert e[..|e| - 1] == ElidedAudits(front, cfg);
    }
  }

  /** The same for categories. */
  lemma {:induction false} ElidedCategoriesStable(cats: seq<Category>, cfg: ReportConfig, env: Env)
    ensures ElidedCategories(ElidedCategories(cats, cfg), cfg) == ElidedCategories(cats, cfg)
    ensures CategoriesText(ElidedCategories(cats, cfg), cfg, env) == CategoriesText(cats, cfg, env)
  {
    if cats != [] {
      var front := cats[..|cats| - 1];
      var e := ElidedCategories(cats, cfg);
      ElidedCategoriesStable(front, cfg, env);
      ElidedAuditsStable(cats[|cats| - 1].audits, cfg, env);
      assert e[..|e| - 1] == ElidedCategories(front, cfg);
    }
  }

  /**
   * Writing a report a second time, after the first write elided its
   * details in place, prints the same lines and changes nothing more.
   */
  lemma ElidedReportStable(rep: Report, cfg: ReportConfig, env: Env)
    ensures ElidedReport(ElidedReport(rep, cfg), cfg) == ElidedReport(rep, cfg)
    ensures ReportText(ElidedReport(rep, cfg), cfg, env) == ReportText(rep, cfg, env)
    ensures ElidedReport(rep, cfg).url == rep.url
    ensures |ElidedReport(rep, cfg).categories| == |rep.categories|
  {
    ElidedCategoriesStable(rep.categories, cfg, env);
    ElidedCategoriesLength(rep.categories, cfg);
  }

  lemma {:induction false} ElidedCategoriesLength(cats: seq<Category>, cfg: ReportConfig)
    ensures |ElidedCategories(cats, cfg)| == |cats|
  {
    if cats != [] {
      ElidedCategoriesLength(cats[..|cats| - 1], cfg);
    }
  }

  /** A listed category: its header, the underline, its audits, then a blank line. */
  lemma CategoryFrame(cat: Category, cfg: ReportConfig, env: Env)
    requires cfg.audits != AuditsNone
    ensures var t := CategoryText(cat, cfg, env);
      && |t| >= 3 && t[0] == CategoryHeader(cat) && t[1] == Repeat('-', CatUnderlineLen)
      && t[2..|t| - 1] == AuditsText(cat.audits, cfg, env) && t[|t| - 1] == ""
  {
    var t := CategoryText(cat, cfg, env);
    assert t == [CategoryHeader(cat), Repeat('-', CatUnderlineLen)] + AuditsText(cat.audits, cfg, env) + [""];
  }

  /** The header lines of `cats`, in order. */
  function Headers(cats: seq<Category>): seq<string>
  {
    if cats == [] then [] else Headers(cats[..|cats| - 1]) + [CategoryHeader(cats[|cats| - 1])]
  }

  lemma {:induction false} HeadersAt(cats: seq<Category>)
    ensures |Headers(cats)| == |cats|
    ensures forall i :: 0 <= i < |cats| ==> Headers(cats)[i] == CategoryHeader(cats[i])
  {
    if cats != [] {
      var front := cats[..|cats| - 1];
      var last := CategoryHeader(cats[|cats| - 1]);
      var hs := Headers(front);
      HeadersAt(front);
      assert Headers(cats) == hs + [last];
      forall i | 0 <= i < |cats| ensures Headers(cats)[i] == CategoryHeader(cats[i]) {
        if i < |front| {
          assert cats[i] == front[i];
          assert Headers(cats)[i] == hs[i];
        } else {
          assert Headers(cats)[i] == last;
        }
      }
    }
  }

  /** Without audits, the categories are written as one header line each. */
  lemma {:induction false} AuditsNoneText(cats: seq<Category>, cfg: ReportConfig, env: Env)
    requires cfg.audits == AuditsNone
    ensures CategoriesText(cats, cfg, env) == Headers(cats)
  {
    if cats != [] {
      AuditsNoneText(cats[..|cats| - 1], cfg, env);
    }
  }

  /** Without audits, nothing is elided. */
  lemma {:induction false} AuditsNoneKeeps(cats: seq<Category>, cfg: ReportConfig)
    requires cfg.audits == AuditsNone
    ensures ElidedCategories(cats, cfg) == cats
  {
    if cats != [] {
      var front := cats[..|cats| - 1];
      AuditsNoneKeeps(front, cfg);
      assert front + [cats[|cats| - 1]] == cats;
    }
  }

  /** Without audits, a report is its URL, a blank line and one header line per category. */
  lemma AuditsNoneReport(rep: Report, cfg: ReportConfig, env: Env)
    requires cfg.audits == AuditsNone
    ensures var t := ReportText(rep, cfg, env);
      && |t| == 2 + |rep.categories| && t[0] == rep.url && t[1] == ""
      && (forall i :: 0 <= i < |rep.categories| ==> t[2 + i] == CategoryHeader(rep.categories[i]))
    ensures ElidedReport(rep, cfg) == rep
  {
    var body := Headers(rep.categories);
    AuditsNoneText(rep.categories, cfg, env);
    HeadersAt(rep.categories);
    AuditsNoneKeeps(rep.categories, cfg);
    assert forall i :: 0 <= i < |body| ==> ReportText(rep, cfg, env)[2 + i] == body[i];
  }

  /** The lines of a concatenation of blocks are the concatenation of their lines. */
  lemma {:induction false} FlattenConcat(a: seq<seq<string>>, b: seq<seq<string>>)
    ensures Flatten(a + b) == Flatten(a) + Flatten(b)
    decreases |b|
  {
    if b == [] {
      assert a + b == a;
    } else {
      var front := b[..|b| - 1];
      FlattenConcat(a, front);
      assert (a + b)[..|a + b| - 1] == a + front;
    }
  }

  lemma {:induction false} ReportBlocksLength(reps: seq<Report>, cfg: ReportConfig, env: Env)
    ensures |ReportBlocks(reps, cfg, env)| == |reps|
  {
    if reps != [] {
      ReportBlocksLength(reps[..|reps| - 1], cfg, env);
    }
  }

  lemma {:induction false} ReportBlocksIndex(reps: seq<Report>, cfg: ReportConfig, env: Env, i: nat)
    requires i < |reps|
    ensures |ReportBlocks(reps, cfg, env)| == |reps| && ReportBlocks(reps, cfg, env)[i] == ReportBlock(reps[i], cfg, env)
  {
    var front := reps[..|reps| - 1];
    ReportBlocksLength(reps, cfg, env);
    ReportBlocksLength(front, cfg, env);
    if i < |front| {
      ReportBlocksIndex(front, cfg, env, i);
      assert front[i] == reps[i];
    }
  }

  /** A report's block starts with the divider, a blank line, its URL and a blank line. */
  lemma ReportBlockStart(rep: Report, cfg: ReportConfig, env: Env)
    ensures var b := ReportBlock(rep, cfg, env);
      |b| >= 4 && b[0] == Divider() && b[1] == "" && b[2] == rep.url && b[3] == ""
  {
  }

  /** The lines of block `i` follow the lines of the blocks before it. */
  lemma FlattenAt(b: seq<seq<string>>, i: nat)
    requires i < |b|
    ensures |Flatten(b[..i])| + |b[i]| <= |Flatten(b)|
    ensures forall k :: 0 <= k < |b[i]| ==> Flatten(b)[|Flatten(b[..i])| + k] == b[i][k]
  {
    assert b == b[..i] + [b[i]] + b[i + 1..];
    FlattenConcat(b[..i] + [b[i]], b[i + 1..]);
    FlattenConcat(b[..i], [b[i]]);
    assert Flatten([b[i]]) == b[i] by {
      assert [b[i]][..0] == [];
    }
  }

  /**
   * The reports are written one after the other, each in its own block: the
   * lines of the blocks before report `i` come first, then report `i`'s
   * divider, blank line, URL and blank line.
   */
  lemma ReportsTextBlock(reps: seq<Report>, cfg: ReportConfig, env: Env, i: nat)
    requires i < |reps|
    ensures |ReportBlocks(reps, cfg, env)| == |reps|
    ensures var b := ReportBlocks(reps, cfg, env); var t := ReportsText(reps, cfg, env);
      var start := |Flatten(b[..i])|;
      && start + 4 <= |t|
      && t[start] == Divider() && t[start + 1] == "" && t[start + 2] == reps[i].url && t[start + 3] == ""
  {
    var b := ReportBlocks(reps, cfg, env);
    ReportBlocksIndex(reps, cfg, env, i);
    ReportBlockStart(reps[i], cfg, env);
    FlattenAt(b, i);
  }
}
