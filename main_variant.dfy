/**
 * main.go: the earlier revision of report building and text output that
 * lives beside `main()`. It differs from report.go and text.go in four
 * ways: a missing audit is logged and skipped instead of failing the
 * report, every item cell of a details table is elided to 40 code points,
 * the summary heading comes from the first report, and the audit listing
 * always leaves out unscored and perfect audits, with `formatTable` able
 * to fail.
 *
 * `main()` itself (flags, the API call, exit codes) is not modelled.
 */
module MainProgram {
  import opened Wrappers
  import opened Fmt
  import opened StrUtil
  import opened Reports
  import Text

  /** Width every item cell is elided to. */
  const MaxDetailLen: nat := 40

  /** Number of detail lines `formatTable` is asked to keep. */
  const MaxDetailLines: nat := 5

  // ---------------------------------------------------------------------
  // getDetails, with elided item cells
  // ---------------------------------------------------------------------

  /** One item's row with every cell elided. */
  function ElidedRowCells(item: map<string, Value>, keys: seq<string>, units: seq<string>, pr: Printer): seq<string>
    requires |units| == |keys|
  {
    if keys == [] then []
    else
      var n := |keys| - 1;
      ElidedRowCells(item, keys[..n], units[..n], pr) + [Elide(ItemCell(item, keys[n], units[n], pr), MaxDetailLen)]
  }

  /** One elided row per item, in item order. */
  function ElidedItemRows(items: seq<map<string, Value>>, keys: seq<string>, units: seq<string>, pr: Printer): seq<seq<string>>
    requires |units| == |keys|
  {
    if items == [] then []
    else
      var n := |items| - 1;
      ElidedItemRows(items[..n], keys, units, pr) + [ElidedRowCells(items[n], keys, units, pr)]
  }

  /** The details table of main.go's `getDetails`: as report.go's, with the item cells elided. */
  function ElidedDetailsTable(raw: RawDetails, pr: Printer): seq<seq<string>>
  {
    if |raw.text| == 0 then []
    else if raw.parsed.None? then [[raw.text]]
    else if !HasTable(raw) then []
    else
      var (names, keys, units) := ColumnLists(raw.parsed.value.headings);
      ColumnListsLen(raw.parsed.value.headings);
      [names] + ElidedItemRows(raw.parsed.value.items, keys, units, pr)
  }

  /** Builds one item's row, eliding each cell as it is appended. */
  method BuildElidedRow(item: map<string, Value>, keys: seq<string>, units: seq<string>, pr: Printer) returns (row: seq<string>)
    requires |units| == |keys|
    ensures row == ElidedRowCells(item, keys, units, pr)
  {
    row := [];
    var k := 0;
    while k < |keys|
      invariant 0 <= k <= |keys|
      invariant row == ElidedRowCells(item, keys[..k], units[..k], pr)
    {
      assert keys[..k + 1][..k] == keys[..k] && units[..k + 1][..k] == units[..k];
      var val := ItemCell(item, keys[k], units[k], pr);
      row := row + [Elide(val, MaxDetailLen)];
      k := k + 1;
    }
    assert keys[..k] == keys && units[..k] == units;
  }

  /** main.go's `getDetails`. */
  method GetElidedDetails(raw: RawDetails, pr: Printer) returns (rows: seq<seq<string>>)
    ensures rows == ElidedDetailsTable(raw, pr)
  {
    if |raw.text| == 0 {
      return [];
    }
    if raw.parsed.None? {
      return [[raw.text]];
    }
    var d := raw.parsed.value;
    if |d.headings| == 0 || |d.items| == 0 {
      return [];
    }
    var headings, keys, units := Columns(d.headings);
    ColumnListsLen(d.headings);
    var body := BuildElidedRows(d.items, keys, units, pr);
    rows := [headings] + body;
  }

  /** The item loop of main.go's `getDetails`: one elided row per item, in order. */
  method BuildElidedRows(items: seq<map<string, Value>>, keys: seq<string>, units: seq<string>, pr: Printer) returns (rows: seq<seq<string>>)
    requires |units| == |keys|
    ensures rows == ElidedItemRows(items, keys, units, pr)
  {
    rows := [];
    var i := 0;
    while i < |items|
      invariant 0 <= i <= |items|
      invariant rows == ElidedItemRows(items[..i], keys, units, pr)
    {
      assert items[..i + 1][..i] == items[..i];
      var row := BuildElidedRow(items[i], keys, units, pr);
      rows := rows + [row];
      i := i + 1;
    }
    assert items[..i] == items;
  }

  /** An elided row is report.go's row with each cell elided. */
  lemma {:induction false} ElidedRowIsElided(item: map<string, Value>, keys: seq<string>, units: seq<string>, pr: Printer)
    requires |units| == |keys|
    ensures ElidedRowCells(item, keys, units, pr) == Text.ElideRow(RowCells(item, keys, units, pr), MaxDetailLen)
  {
    if keys != [] {
      var n := |keys| - 1;
      var front := RowCells(item, keys[..n], units[..n], pr);
      var row := RowCells(item, keys, units, pr);
      ElidedRowIsElided(item, keys[..n], units[..n], pr);
      RowCellsAt(item, keys[..n], units[..n], pr);
      assert row == front + [ItemCell(item, keys[n], units[n], pr)];
      assert row[..|row| - 1] == front;
    }
  }

  /** The elided item rows are report.go's item rows, each elided. */
  lemma {:induction false} ElidedItemRowsAreElided(items: seq<map<string, Value>>, keys: seq<string>, units: seq<string>, pr: Printer)
    requires |units| == |keys|
    ensures ElidedItemRows(items, keys, units, pr) == Text.ElideCells(ItemRows(items, keys, units, pr), MaxDetailLen)
  {
    if items != [] {
      var n := |items| - 1;
      var front := ItemRows(items[..n], keys, units, pr);
      var rows := ItemRows(items, keys, units, pr);
      ElidedItemRowsAreElided(items[..n], keys, units, pr);
      ElidedRowIsElided(items[n], keys, units, pr);
      ItemRowsAt(items[..n], keys, units, pr);
      assert rows == front + [RowCells(items[n], keys, units, pr)];
      assert rows[..|rows| - 1] == front;
    }
  }

  /**
   * main.go's details against report.go's: identical without a table (the
   * undecodable raw text is not elided); with one, the same heading row and
   * every item row elided to 40 code points.
   */
  lemma ElidedDetailsRelation(raw: RawDetails, pr: Printer)
    ensures !HasTable(raw) ==> ElidedDetailsTable(raw, pr) == DetailsTable(raw, pr)
    ensures HasTable(raw) ==>
      var e := ElidedDetailsTable(raw, pr); var d := DetailsTable(raw, pr);
      && |d| > 0 && e == [d[0]] + Text.ElideCells(d[1..], MaxDetailLen)
  {
    if HasTable(raw) {
      var p := raw.parsed.value;
      var (names, keys, units) := ColumnLists(p.headings);
      ColumnListsLen(p.headings);
      ElidedItemRowsAreElided(p.items, keys, units, pr);
      var d := DetailsTable(raw, pr);
      assert d == [names] + ItemRows(p.items, keys, units, pr);
      assert d[1..] == ItemRows(p.items, keys, units, pr);
    }
  }

  /**
   * Cell `j` of item `i`: report.go's cell elided, so never longer than 40
   * code points, and unchanged when it already fits; heading `j` is not elided.
   */
  lemma ElidedDetailsCell(raw: RawDetails, pr: Printer, i: nat, j: nat)
    requires HasTable(raw) && i < |raw.parsed.value.items| && j < |raw.parsed.value.headings|
    ensures var e := ElidedDetailsTable(raw, pr); var d := DetailsTable(raw, pr);
      && |e| == |d| && i + 1 < |e| && |e[i + 1]| == |d[i + 1]| && j < |e[i + 1]| && j < |e[0]|
      && e[0][j] == d[0][j] == HeadingName(raw.parsed.value.headings[j])
      && e[i + 1][j] == Elide(d[i + 1][j], MaxDetailLen)
      && |e[i + 1][j]| <= MaxDetailLen
      && (e[i + 1][j] == d[i + 1][j] <==> |d[i + 1][j]| <= MaxDetailLen)
  {
    var d := DetailsTable(raw, pr);
    ElidedDetailsRelation(raw, pr);
    DetailsShape(raw, pr);
    Text.ElidedCellsBounded(d[1..], MaxDetailLen, i, j);
    assert d[1..][i] == d[i + 1];
  }

  // ---------------------------------------------------------------------
  // The report-building loop of main()
  // ---------------------------------------------------------------------

  /** All five category slots are filled; main.go dereferences each one without a nil check. */
  predicate AllPresent(c: LhrCategories)
  {
    c.performance.Some? && c.accessibility.Some? && c.bestPractices.Some? && c.seo.Some? && c.pwa.Some?
  }

  /** An audit as main.go builds it: report.go's fields, and the elided details. */
  function ElidedAudit(a: LhrAudit, pr: Printer): Audit
  {
    Audit(a.title, Score100(a.score), "", ElidedDetailsTable(a.details, pr))
  }

  /** The references that name an audit of the response, in order. */
  function KnownRefs(refs: seq<string>, audits: map<string, LhrAudit>): seq<string>
  {
    if refs == [] then []
    else
      var known := KnownRefs(refs[..|refs| - 1], audits);
      if refs[|refs| - 1] in audits then known + [refs[|refs| - 1]] else known
  }

  /** The audits of a category, skipping references without an audit. */
  function KnownAudits(refs: seq<string>, audits: map<string, LhrAudit>, pr: Printer): seq<Audit>
  {
    if refs == [] then []
    else
      var known := KnownAudits(refs[..|refs| - 1], audits, pr);
      var id := refs[|refs| - 1];
      if id in audits then known + [ElidedAudit(audits[id], pr)] else known
  }

  /** The log lines of a category: one per reference without an audit, in order. */
  function MissingRefs(c: LhrCategory, refs: seq<string>, audits: map<string, LhrAudit>): seq<MissingAudit>
  {
    if refs == [] then []
    else
      var missing := MissingRefs(c, refs[..|refs| - 1], audits);
      var id := refs[|refs| - 1];
      if id in audits then missing else missing + [MissingAudit(c.title, id)]
  }

  function VariantCategory(c: LhrCategory, audits: map<string, LhrAudit>, pr: Printer): Category
  {
    Category(c.title, CategoryAbbrev(c.id), Score100(c.score), KnownAudits(c.auditRefs, audits, pr))
  }

  function VariantCategories(cs: seq<LhrCategory>, audits: map<string, LhrAudit>, pr: Printer): seq<Category>
  {
    if cs == [] then [] else VariantCategories(cs[..|cs| - 1], audits, pr) + [VariantCategory(cs[|cs| - 1], audits, pr)]
  }

  function CategoriesMissing(cs: seq<LhrCategory>, audits: map<string, LhrAudit>): seq<MissingAudit>
  {
    if cs == [] then [] else CategoriesMissing(cs[..|cs| - 1], audits) + MissingRefs(cs[|cs| - 1], cs[|cs| - 1].auditRefs, audits)
  }

  /** The report main() builds, and the missing audits it logs. */
  function VariantReport(res: Response, pr: Printer): Report
  {
    Report(res.id, VariantCategories(Listed(res), res.audits, pr))
  }

  function VariantMissing(res: Response): seq<MissingAudit>
  {
    CategoriesMissing(Listed(res), res.audits)
  }

  /** The audit loop of one category in main(). */
  method BuildCategory(c: LhrCategory, audits: map<string, LhrAudit>, pr: Printer) returns (cat: Category, logged: seq<MissingAudit>)
    ensures cat == VariantCategory(c, audits, pr)
    ensures logged == MissingRefs(c, c.auditRefs, audits)
  {
    var auds: seq<Audit> := [];
    logged := [];
    var k := 0;
    while k < |c.auditRefs|
      invariant 0 <= k <= |c.auditRefs|
      invariant auds == KnownAudits(c.auditRefs[..k], audits, pr)
      invariant logged == MissingRefs(c, c.auditRefs[..k], audits)
    {
      assert c.auditRefs[..k + 1][..k] == c.auditRefs[..k];
      var id := c.auditRefs[k];
      if id !in audits {
        logged := logged + [MissingAudit(c.title, id)];
      } else {
        var lhrAudit := audits[id];
        var details := GetElidedDetails(lhrAudit.details, pr);
        auds := auds + [Audit(lhrAudit.title, Score100(lhrAudit.score), "", details)];
      }
      k := k + 1;
    }
    assert c.auditRefs[..k] == c.auditRefs;
    cat := Category(c.title, CategoryAbbrev(c.id), Score100(c.score), auds);
  }

  /** The report-building loop of main(): all five categories, in DevTools order. */
  method BuildReport(res: Response, pr: Printer) returns (rep: Report, logged: seq<MissingAudit>)
    requires AllPresent(res.categories)
    ensures rep == VariantReport(res, pr)
    ensures logged == VariantMissing(res)
  {
    var order := Order(res.categories);
    PresentAllFive(res.categories);
    ghost var ps := Listed(res);
    var cats: seq<Category> := [];
    logged := [];
    var i := 0;
    while i < |order|
      invariant 0 <= i <= |order| == |ps|
      invariant forall m :: 0 <= m < |order| ==> order[m] == Some(ps[m])
      invariant cats == VariantCategories(ps[..i], res.audits, pr)
      invariant logged == CategoriesMissing(ps[..i], res.audits)
    {
      assert ps[..i + 1][..i] == ps[..i];
      var lhrCat := order[i].value;
      var cat, missing := BuildCategory(lhrCat, res.audits, pr);
      cats := cats + [cat];
      logged := logged + missing;
      i := i + 1;
    }
    assert ps[..i] == ps;
    rep := Report(res.id, cats);
  }

  lemma {:induction false} KnownRefsLength(refs: seq<string>, audits: map<string, LhrAudit>, pr: Printer)
    ensures |KnownAudits(refs, audits, pr)| == |KnownRefs(refs, audits)| <= |refs|
  {
    if refs != [] {
      KnownRefsLength(refs[..|refs| - 1], audits, pr);
    }
  }

  /** Every reference is either kept or logged as missing, never both. */
  lemma {:induction false} MissingRefsCount(c: LhrCategory, refs: seq<string>, audits: map<string, LhrAudit>)
    ensures |KnownRefs(refs, audits)| + |MissingRefs(c, refs, audits)| == |refs|
    ensures forall m :: 0 <= m < |MissingRefs(c, refs, audits)| ==>
      MissingRefs(c, refs, audits)[m].category == c.title && MissingRefs(c, refs, audits)[m].audit !in audits
  {
    if refs != [] {
      MissingRefsCount(c, refs[..|refs| - 1], audits);
    }
  }

  /**
   * Audit `k` of a category is the audit named by the `k`-th reference that
   * has one; every kept reference names an audit of the response.
   */
  lemma {:induction false} KnownAuditsIndex(refs: seq<string>, audits: map<string, LhrAudit>, pr: Printer, k: nat)
    requires k < |KnownRefs(refs, audits)|
    ensures KnownRefs(refs, audits)[k] in audits
    ensures |KnownAudits(refs, audits, pr)| == |KnownRefs(refs, audits)|
    ensures KnownAudits(refs, audits, pr)[k] == ElidedAudit(audits[KnownRefs(refs, audits)[k]], pr)
  {
    var front := refs[..|refs| - 1];
    KnownRefsLength(refs, audits, pr);
    KnownRefsLength(front, audits, pr);
    if k < |KnownRefs(front, audits)| {
      KnownAuditsIndex(front, audits, pr, k);
    }
  }

  /** Nothing is skipped exactly when every reference names an audit. */
  lemma {:induction false} KnownRefsAll(refs: seq<string>, audits: map<string, LhrAudit>, pr: Printer)
    ensures KnownRefs(refs, audits) == refs <==> forall k :: 0 <= k < |refs| ==> refs[k] in audits
  {
    if refs != [] {
      var front, last := refs[..|refs| - 1], refs[|refs| - 1];
      var known := KnownRefs(front, audits);
      KnownRefsAll(front, audits, pr);
      KnownRefsLength(front, audits, pr);
      assert refs == front + [last];
      if last in audits {
        assert KnownRefs(refs, audits) == known + [last];
        if known == front {
          assert forall k :: 0 <= k < |refs| ==> refs[k] in audits by {
            forall k | 0 <= k < |refs| ensures refs[k] in audits {
              if k < |front| {
                assert refs[k] == front[k];
              }
            }
          }
        } else {
          assert KnownRefs(refs, audits) != refs;
          assert !(forall k :: 0 <= k < |front| ==> front[k] in audits);
          var k :| 0 <= k < |front| && front[k] !in audits;
          assert refs[k] == front[k];
        }
      } else {
        assert KnownRefs(refs, audits) == known;
        assert |known| < |refs|;
        assert refs[|refs| - 1] !in audits;
      }
    }
  }

  /**
   * When a category is complete, main.go keeps all its audits and agrees
   * with report.go on everything but the details, whose item cells it elides.
   */
  lemma VariantCategoryComplete(c: LhrCategory, audits: map<string, LhrAudit>, pr: Printer, k: nat)
    requires Complete(c, audits) && k < |c.auditRefs|
    ensures var v := VariantCategory(c, audits, pr); var t := ToCategory(c, audits, pr);
      && v.title == t.title && v.abbrev == t.abbrev && v.score == t.score
      && |v.audits| == |t.audits|
      && v.audits[k] == t.audits[k].(details := ElidedDetailsTable(audits[c.auditRefs[k]].details, pr))
  {
    KnownRefsAll(c.auditRefs, audits, pr);
    KnownAuditsIndex(c.auditRefs, audits, pr, k);
  }

  // ---------------------------------------------------------------------
  // writeSummary
  // ---------------------------------------------------------------------

  /** `formatTable`, which can fail with an error message, and `urlPath`. Neither is part of this model. */
  datatype MainEnv = MainEnv(urlPath: string -> string, formatTable: (seq<seq<string>>, seq<Text.TableOpt>) -> Result<seq<string>, string>)

  /** The summary row of one report: its URL path or URL, then its scores. */
  function SummaryRow(rep: Report, pathOnly: bool, env: MainEnv): seq<string>
  {
    [if pathOnly then env.urlPath(rep.url) else rep.url] + Text.Scores(rep.categories)
  }

  function SummaryBody(reps: seq<Report>, pathOnly: bool, env: MainEnv): seq<seq<string>>
  {
    if reps == [] then []
    else SummaryBody(reps[..|reps| - 1], pathOnly, env) + [SummaryRow(reps[|reps| - 1], pathOnly, env)]
  }

  /** The table main.go's `writeSummary` lays out: the heading from the first report, then one row per report. */
  function SummaryRows(reps: seq<Report>, pathOnly: bool, env: MainEnv): seq<seq<string>>
    requires |reps| > 0
  {
    [["URL"] + Text.Abbrevs(reps[0].categories)] + SummaryBody(reps, pathOnly, env)
  }

  function SummaryOpts(reps: seq<Report>): seq<Text.TableOpt>
    requires |reps| > 0
  {
    [Text.Spacing(2)] + Text.RightCols(|reps[0].categories|)
  }

  /** What main.go's `writeSummary` writes, or the error it returns. */
  function Summary(reps: seq<Report>, pathOnly: bool, env: MainEnv): Result<seq<string>, string>
    requires |reps| > 0
  {
    match env.formatTable(SummaryRows(reps, pathOnly, env), SummaryOpts(reps))
    case Ok(lines) => Ok(lines)
    case Err(e) => Err("failed formatting table: " + e)
  }

  method BuildSummaryRow(rep: Report, pathOnly: bool, env: MainEnv) returns (row: seq<string>)
    ensures row == SummaryRow(rep, pathOnly, env)
  {
    row := [];
    if pathOnly {
      row := row + [env.urlPath(rep.url)];
    } else {
      row := row + [rep.url];
    }
    ghost var first := row;
    var i := 0;
    while i < |rep.categories|
      invariant 0 <= i <= |rep.categories|
      invariant row == first + Text.Scores(rep.categories[..i])
    {
      assert rep.categories[..i + 1][..i] == rep.categories[..i];
      row := row + [Itoa(rep.categories[i].score)];
      i := i + 1;
    }
    assert rep.categories[..i] == rep.categories;
  }

  /** main.go's `writeSummary`; `reps[0]` must exist. */
  method WriteSummary(reps: seq<Report>, pathOnly: bool, env: MainEnv) returns (r: Result<seq<string>, string>)
    requires |reps| > 0
    ensures r == Summary(reps, pathOnly, env)
  {
    var heading, opts := Text.CategoryColumns(reps[0].categories);
    var rows := [heading];
    var k := 0;
    while k < |reps|
      invariant 0 <= k <= |reps|
      invariant rows == [heading] + SummaryBody(reps[..k], pathOnly, env)
    {
      assert reps[..k + 1][..k] == reps[..k];
      var row := BuildSummaryRow(reps[k], pathOnly, env);
      rows := rows + [row];
      k := k + 1;
    }
    assert reps[..k] == reps;
    var lines := env.formatTable(rows, opts);
    if lines.Err? {
      return Err("failed formatting table: " + lines.error);
    }
    r := Ok(lines.value);
  }

  lemma {:induction false} SummaryBodySame(reps: seq<Report>, pathOnly: bool, env: MainEnv, cfg: Text.ReportConfig, tenv: Text.Env)
    requires cfg.fullURLs == !pathOnly && tenv.urlPath == env.urlPath
    ensures SummaryBody(reps, pathOnly, env) == Text.SummaryBody(reps, cfg, tenv)
  {
    if reps != [] {
      SummaryBodySame(reps[..|reps| - 1], pathOnly, env, cfg, tenv);
    }
  }

  /**
   * When the first report has categories, main.go's summary table and
   * options are exactly text.go's, with `pathOnly` the negation of `fullURLs`.
   */
  lemma SummaryAgrees(reps: seq<Report>, pathOnly: bool, env: MainEnv, cfg: Text.ReportConfig, tenv: Text.Env)
    requires |reps| > 0 && |reps[0].categories| > 0
    requires cfg.fullURLs == !pathOnly && tenv.urlPath == env.urlPath
    ensures SummaryRows(reps, pathOnly, env) == Text.SummaryRows(reps, cfg, tenv)
    ensures SummaryOpts(reps) == Text.SummaryOpts(reps)
  {
    SummaryBodySame(reps, pathOnly, env, cfg, tenv);
    assert Text.FirstWithCategories(reps) == 0;
  }

  /**
   * The heading always has one column per category of the first report, and
   * every one of those columns is right-aligned.
   */
  lemma SummaryHeadingColumns(reps: seq<Report>, pathOnly: bool, env: MainEnv)
    requires |reps| > 0
    ensures var h := SummaryRows(reps, pathOnly, env)[0]; var o := SummaryOpts(reps); var cats := reps[0].categories;
      && |h| == |o| == 1 + |cats| && h[0] == "URL" && o[0] == Text.Spacing(2)
      && forall c :: 0 <= c < |cats| ==> h[c + 1] == cats[c].abbrev && o[c + 1] == Text.RightCol(c + 1)
  {
    Text.AbbrevsAt(reps[0].categories);
    Text.RightColsAt(|reps[0].categories|);
  }

  // ---------------------------------------------------------------------
  // writeReport
  // ---------------------------------------------------------------------

  /** The error main.go's `writeReport` returns when the details of an audit cannot be formatted. */
  datatype DetailsError = DetailsError(audit: string, cause: string)

  /** The lines written, and the error that stopped the writing, if any. */
  datatype Output = Output(lines: seq<string>, failure: Option<DetailsError>)

  /** `prefix` written before `out`. */
  function After(prefix: seq<string>, out: Output): Output
  {
    Output(prefix + out.lines, out.failure)
  }

  /** True when main.go's `writeReport` lists the audit: it has a score below 100. */
  predicate Shown(a: Audit)
  {
    !(a.score < 0 || a.score == 100)
  }

  function AuditLine(a: Audit): string
  {
    Int3(a.score) + " " + (a.title + (if a.value != "" then ": " + a.value else ""))
  }

  /** The options the details of an audit are formatted with. */
  function DetailOpts(): seq<Text.TableOpt>
  {
    [Text.Spacing(2), Text.MaxLines(MaxDetailLines)]
  }

  /** What is written for one audit: its line, then its detail lines or the error. */
  function AuditOut(a: Audit, env: MainEnv): Output
  {
    if !Shown(a) then Output([], None)
    else
      match env.formatTable(a.details, DetailOpts())
      case Ok(ds) => Output([AuditLine(a)] + Text.Indent(ds), None)
      case Err(e) => Output([AuditLine(a)], Some(DetailsError(a.title, e)))
  }

  /** The audits of a category, up to the first error. */
  function AuditsOut(auds: seq<Audit>, env: MainEnv): Output
  {
    if auds == [] then Output([], None)
    else
      var first := AuditOut(auds[0], env);
      if first.failure.Some? then first else After(first.lines, AuditsOut(auds[1..], env))
  }

  /** What is written for one category: header, underline, the audits and, when none failed, a blank line. */
  function CategoryOut(cat: Category, env: MainEnv): Output
  {
    var head := [Int3(cat.score) + " " + cat.title, Repeat('-', Text.CatUnderlineLen)];
    var auds := AuditsOut(cat.audits, env);
    if auds.failure.Some? then After(head, auds) else Output(head + auds.lines + [""], None)
  }

  function CategoriesOut(cats: seq<Category>, env: MainEnv): Output
  {
    if cats == [] then Output([], None)
    else
      var first := CategoryOut(cats[0], env);
      if first.failure.Some? then first else After(first.lines, CategoriesOut(cats[1..], env))
  }

  /** What main.go's `writeReport` writes before it returns, and its error. */
  function ReportOut(rep: Report, env: MainEnv): Output
  {
    After([rep.url, ""], CategoriesOut(rep.categories, env))
  }

  method WriteAudit(a: Audit, env: MainEnv) returns (out: Output)
    ensures out == AuditOut(a, env)
  {
    if a.score < 0 || a.score == 100 {
      return Output([], None);
    }
    var text := a.title;
    if a.value != "" {
      text := text + ": " + a.value;
      assert text == a.title + (": " + a.value);
    }
    var ln := Int3(a.score) + " " + text;
    assert ln == AuditLine(a);
    var details := env.formatTable(a.details, DetailOpts());
    if details.Err? {
      return Output([ln], Some(DetailsError(a.title, details.error)));
    }
    var ls := Text.WriteIndented(details.value);
    out := Output([ln] + ls, None);
  }

  method WriteAudits(auds: seq<Audit>, env: MainEnv) returns (out: Output)
    ensures out == AuditsOut(auds, env)
  {
    var lines: seq<string> := [];
    var i := 0;
    while i < |auds|
      invariant 0 <= i <= |auds|
      invariant AuditsOut(auds, env) == After(lines, AuditsOut(auds[i..], env))
    {
      assert auds[i..][1..] == auds[i + 1..];
      var o := WriteAudit(auds[i], env);
      if o.failure.Some? {
        return Output(lines + o.lines, o.failure);
      }
      lines := lines + o.lines;
      i := i + 1;
    }
    out := Output(lines, None);
  }

  method WriteCategory(cat: Category, env: MainEnv) returns (out: Output)
    ensures out == CategoryOut(cat, env)
  {
    var head := [Int3(cat.score) + " " + cat.title, Repeat('-', Text.CatUnderlineLen)];
    var auds := WriteAudits(cat.audits, env);
    if auds.failure.Some? {
      return After(head, auds);
    }
    out := Output(head + auds.lines + [""], None);
  }

  /** main.go's `writeReport`. */
  method WriteReport(rep: Report, env: MainEnv) returns (out: Output)
    ensures out == ReportOut(rep, env)
  {
    var lines := [rep.url, ""];
    var i := 0;
    while i < |rep.categories|
      invariant 0 <= i <= |rep.categories|
      invariant ReportOut(rep, env) == After(lines, CategoriesOut(rep.categories[i..], env))
    {
      assert rep.categories[i..][1..] == rep.categories[i + 1..];
      var o := WriteCategory(rep.categories[i], env);
      if o.failure.Some? {
        return Output(lines + o.lines, o.failure);
      }
      lines := lines + o.lines;
      i := i + 1;
    }
    out := Output(lines, None);
  }

  /**
   * The fixed filter: an audit is written exactly when it has a score below
   * 100, and then its line comes first and is text.go's line for it.
   */
  lemma AuditFilter(a: Audit, env: MainEnv)
    ensures AuditOut(a, env).lines == [] <==> a.score < 0 || a.score == 100
    ensures Shown(a) ==> AuditOut(a, env).lines[0] == AuditLine(a) == Text.AuditLine(a)
  {
    if Shown(a) {
      var tail := if a.value != "" then ": " + a.value else "";
      assert Int3(a.score) + " " + (a.title + tail) == Int3(a.score) + " " + a.title + tail;
    }
  }

  /**
   * Formatting fails for an audit only when it is listed; the error names
   * the audit, and the audit line is written before it.
   */
  lemma AuditFailure(a: Audit, env: MainEnv)
    ensures AuditOut(a, env).failure.Some? <==> Shown(a) && env.formatTable(a.details, DetailOpts()).Err?
    ensures AuditOut(a, env).failure.Some? ==>
      AuditOut(a, env).lines == [AuditLine(a)] &&
      AuditOut(a, env).failure.value == DetailsError(a.title, env.formatTable(a.details, DetailOpts()).error)
  {
  }

  /** The detail lines of a listed audit are `formatTable`'s lines, each after four spaces. */
  lemma AuditDetails(a: Audit, env: MainEnv)
    requires Shown(a) && env.formatTable(a.details, DetailOpts()).Ok?
    ensures var ds := env.formatTable(a.details, DetailOpts()).value; var out := AuditOut(a, env).lines;
      && |out| == 1 + |ds| && forall k :: 0 <= k < |ds| ==> out[k + 1] == "    " + ds[k]
  {
    Text.IndentAt(env.formatTable(a.details, DetailOpts()).value);
  }

  /**
   * Without an error every audit is written in full; with one, writing stops
   * right after the failing audit's line.
   */
  lemma {:induction false} AuditsOutOk(auds: seq<Audit>, env: MainEnv)
    ensures AuditsOut(auds, env).failure.None? <==> forall k :: 0 <= k < |auds| ==> AuditOut(auds[k], env).failure.None?
  {
    if auds != [] {
      AuditsOutOk(auds[1..], env);
      assert forall k :: 1 <= k < |auds| ==> auds[1..][k - 1] == auds[k];
    }
  }

  /** A category: header and underline first, and a closing blank line exactly when nothing failed. */
  lemma CategoryFrame(cat: Category, env: MainEnv)
    ensures var o := CategoryOut(cat, env);
      && |o.lines| >= 2 && o.lines[0] == Text.CategoryHeader(cat) && o.lines[1] == Repeat('-', Text.CatUnderlineLen)
      && (o.failure.None? <==> AuditsOut(cat.audits, env).failure.None?)
      && (o.failure.None? ==> o.lines[|o.lines| - 1] == "")
  {
  }

  /** Whatever happens, the URL and a blank line are written first. */
  lemma ReportStart(rep: Report, env: MainEnv)
    ensures var o := ReportOut(rep, env); |o.lines| >= 2 && o.lines[0] == rep.url && o.lines[1] == ""
  {
  }
}
