/**
 * report.go: turning an already-decoded PageSpeed Insights response into the
 * tool's own report, category and audit values.
 *
 * JSON decoding itself is not modelled: a response arrives as the values
 * `encoding/json` would produce, and an audit's `details` arrive as their
 * raw text together with the decoded structure, or None when the text does
 * not unmarshal. Go's float64 is a real here, and the two printing verbs the
 * code applies to decoded values (`%.1f` and `fmt.Sprint`) are parameters.
 */
module Reports {
  import opened Wrappers
  import opened Fmt

  /** A JSON value as `encoding/json` decodes it into an `interface{}`. */
  datatype Value =
    | Str(s: string)
    | Num(f: real)
    | Obj(fields: map<string, Value>)
    | Arr(elems: seq<Value>)
    | Bool(b: bool)
    | Null

  /** `fmt.Sprintf("%.1f", f)` and `fmt.Sprint(v)`, which the model does not define. */
  datatype Printer = Printer(fixed1: real -> string, sprint: Value -> string)

  /** One audit result: score in [0, 100], or -1 when the response had none. */
  datatype Audit = Audit(title: string, score: int, value: string, details: seq<seq<string>>)

  /** One category such as "Performance", with its audits in reference order. */
  datatype Category = Category(title: string, abbrev: string, score: int, audits: seq<Audit>)

  /** The report for one URL. */
  datatype Report = Report(url: string, categories: seq<Category>)

  /** A column heading of an audit's details table. */
  datatype Heading = Heading(key: string, text: string, labelText: string, itemType: string)

  /** The decoded form of an audit's details: headings, and one key/value map per item. */
  datatype ParsedDetails = ParsedDetails(headings: seq<Heading>, items: seq<map<string, Value>>)

  /** An audit's `details` field: its raw text and, when that text unmarshals, its decoded form. */
  datatype RawDetails = RawDetails(text: string, parsed: Option<ParsedDetails>)

  /** A category of the Lighthouse result; `auditRefs` holds the ids of its audit references. */
  datatype LhrCategory = LhrCategory(id: string, title: string, score: Value, auditRefs: seq<string>)

  /** An audit of the Lighthouse result. */
  datatype LhrAudit = LhrAudit(title: string, score: Value, details: RawDetails)

  /** The five category slots of the Lighthouse result; a nil pointer is None. */
  datatype LhrCategories = LhrCategories(
    performance: Option<LhrCategory>,
    accessibility: Option<LhrCategory>,
    bestPractices: Option<LhrCategory>,
    seo: Option<LhrCategory>,
    pwa: Option<LhrCategory>)

  /** The parts of a PageSpeed Insights response that the report is built from. */
  datatype Response = Response(id: string, categories: LhrCategories, audits: map<string, LhrAudit>)

  /** The error `readReport` returns: the category's title and the id of the audit it misses. */
  datatype MissingAudit = MissingAudit(category: string, audit: string)

  // ---------------------------------------------------------------------
  // score100 and categoryAbbrev
  // ---------------------------------------------------------------------

  /**
   * `math.Round`: the nearest integer, halves rounded away from zero. The
   * two pairs of bounds pin the result down to exactly one integer.
   */
  function Round(x: real): (n: int)
    ensures x >= 0.0 ==> x - 0.5 < n as real <= x + 0.5
    ensures x < 0.0 ==> x - 0.5 <= n as real < x + 0.5
  {
    if x >= 0.0 then (x + 0.5).Floor else -((-x + 0.5).Floor)
  }

  /** `score100`: -1 for a score that is not a number, else the score times 100, rounded. */
  function Score100(score: Value): (n: int)
    ensures !score.Num? ==> n == -1
    ensures score.Num? ==> score.f * 100.0 - 0.5 <= n as real <= score.f * 100.0 + 0.5
  {
    if score.Num? then Round(score.f * 100.0) else -1
  }

  /** A score in [0, 1] becomes a percentage in [0, 100]. */
  lemma Score100Range(f: real)
    requires 0.0 <= f <= 1.0
    ensures 0 <= Score100(Num(f)) <= 100
  {
  }

  /** Halves round up for non-negative scores: 0.125 is 13 and not 12. */
  lemma Score100Half(k: nat)
    ensures Score100(Num((k as real + 0.5) / 100.0)) == k + 1
  {
    assert (k as real + 0.5) / 100.0 * 100.0 == k as real + 0.5;
  }

  /** The category ids that have a short form. */
  const KnownCategoryIds: set<string> := {"accessibility", "best-practices", "performance", "pwa", "seo"}

  /** `categoryAbbrev`: the short column heading for a category id. */
  function CategoryAbbrev(id: string): (a: string)
    ensures id !in KnownCategoryIds ==> a == id
  {
    match id
    case "accessibility" => "A11Y"
    case "best-practices" => "Best"
    case "performance" => "Perf"
    case "pwa" => "PWA"
    case "seo" => "SEO"
    case _ => id
  }

  /** The five known ids and their short forms. */
  lemma CategoryAbbrevTable()
    ensures CategoryAbbrev("accessibility") == "A11Y"
    ensures CategoryAbbrev("best-practices") == "Best"
    ensures CategoryAbbrev("performance") == "Perf"
    ensures CategoryAbbrev("pwa") == "PWA"
    ensures CategoryAbbrev("seo") == "SEO"
  {
  }

  /** An id is shortened exactly when it is one of the known ones, and then to at most four characters. */
  lemma CategoryAbbrevChanges(id: string)
    ensures CategoryAbbrev(id) != id <==> id in KnownCategoryIds
    ensures id in KnownCategoryIds ==> |CategoryAbbrev(id)| <= 4
  {
  }

  // ---------------------------------------------------------------------
  // getDetails
  // ---------------------------------------------------------------------

  /** A heading's column name: its text, else its label, without surrounding white space. */
  function HeadingName(h: Heading): string
  {
    TrimSpace(if h.text != "" then h.text else h.labelText)
  }

  /** A heading's unit: its item type when that is "ms" or "bytes", else none. */
  function Unit(h: Heading): string
  {
    if h.itemType == "ms" || h.itemType == "bytes" then h.itemType else ""
  }

  /** The text of one cell: the item's value under `key`, coerced by its dynamic type. */
  function ItemCell(item: map<string, Value>, key: string, unit: string, pr: Printer): string
  {
    if key !in item then ""
    else
      var v := item[key];
      match v
      case Str(s) => TrimSpace(s)
      case Num(f) =>
        var n := TrimSuffix(pr.fixed1(f), ".0");
        if unit != "" then n + " " + unit else n
      case Obj(m) =>
        if "snippet" in m && m["snippet"].Str? then m["snippet"].s
        else if "url" in m && m["url"].Str? then m["url"].s
        else pr.sprint(v)
      case _ => pr.sprint(v)
  }

  /** The heading names, keys and units of the columns of `hs`, as three parallel lists. */
  function ColumnLists(hs: seq<Heading>): (seq<string>, seq<string>, seq<string>)
  {
    if hs == [] then ([], [], [])
    else
      var (names, keys, units) := ColumnLists(hs[..|hs| - 1]);
      var h := hs[|hs| - 1];
      (names + [HeadingName(h)], keys + [h.key], units + [Unit(h)])
  }

  lemma {:induction false} ColumnListsLen(hs: seq<Heading>)
    ensures var (names, keys, units) := ColumnLists(hs);
      |names| == |hs| && |keys| == |hs| && |units| == |hs|
  {
    if hs != [] {
      ColumnListsLen(hs[..|hs| - 1]);
    }
  }

  /** Column `j` of the three lists comes from heading `j`. */
  lemma {:induction false} ColumnListsAt(hs: seq<Heading>)
    ensures var (names, keys, units) := ColumnLists(hs);
      && |names| == |hs| && |keys| == |hs| && |units| == |hs|
      && (forall j :: 0 <= j < |hs| ==> names[j] == HeadingName(hs[j]))
      && (forall j :: 0 <= j < |hs| ==> keys[j] == hs[j].key && units[j] == Unit(hs[j]))
  {
    if hs != [] {
      var front := hs[..|hs| - 1];
      ColumnListsAt(front);
      assert forall j :: 0 <= j < |front| ==> front[j] == hs[j];
    }
  }

  /** The cells of one item's row, one per column key and unit, in column order. */
  function RowCells(item: map<string, Value>, keys: seq<string>, units: seq<string>, pr: Printer): seq<string>
    requires |units| == |keys|
  {
    if keys == [] then []
    else
      var n := |keys| - 1;
      RowCells(item, keys[..n], units[..n], pr) + [ItemCell(item, keys[n], units[n], pr)]
  }

  /** Cell `m` of a row is the coerced value under key `m`. */
  lemma {:induction false} RowCellsAt(item: map<string, Value>, keys: seq<string>, units: seq<string>, pr: Printer)
    requires |units| == |keys|
    ensures var row := RowCells(item, keys, units, pr);
      |row| == |keys| && forall m :: 0 <= m < |keys| ==> row[m] == ItemCell(item, keys[m], units[m], pr)
  {
    if keys != [] {
      var n := |keys| - 1;
      RowCellsAt(item, keys[..n], units[..n], pr);
      assert forall m :: 0 <= m < n ==> keys[..n][m] == keys[m] && units[..n][m] == units[m];
    }
  }

  /** One row per item, in item order. */
  function ItemRows(items: seq<map<string, Value>>, keys: seq<string>, units: seq<string>, pr: Printer): seq<seq<string>>
    requires |units| == |keys|
  {
    if items == [] then []
    else
      var n := |items| - 1;
      ItemRows(items[..n], keys, units, pr) + [RowCells(items[n], keys, units, pr)]
  }

  /** Row `i` is the row of item `i`. */
  lemma {:induction false} ItemRowsAt(items: seq<map<string, Value>>, keys: seq<string>, units: seq<string>, pr: Printer)
    requires |units| == |keys|
    ensures var rows := ItemRows(items, keys, units, pr);
      |rows| == |items| && forall i :: 0 <= i < |items| ==> rows[i] == RowCells(items[i], keys, units, pr)
  {
    if items != [] {
      var n := |items| - 1;
      ItemRowsAt(items[..n], keys, units, pr);
      assert forall i :: 0 <= i < n ==> items[..n][i] == items[i];
    }
  }

  /** True when the details decode to a table with at least one heading and one item. */
  predicate HasTable(raw: RawDetails)
  {
    |raw.text| > 0 && raw.parsed.Some? && |raw.parsed.value.headings| > 0 && |raw.parsed.value.items| > 0
  }

  /** What `getDetails` returns for `raw`. */
  function DetailsTable(raw: RawDetails, pr: Printer): seq<seq<string>>
  {
    if |raw.text| == 0 then []
    else if raw.parsed.None? then [[raw.text]]
    else if !HasTable(raw) then []
    else
      var (names, keys, units) := ColumnLists(raw.parsed.value.headings);
      ColumnListsLen(raw.parsed.value.headings);
      [names] + ItemRows(raw.parsed.value.items, keys, units, pr)
  }

  /**
   * The cases without a table: no rows for empty details or for details
   * without headings or without items, and a single cell holding the raw
   * text when it does not decode.
   */
  lemma DetailsWithoutTable(raw: RawDetails, pr: Printer)
    ensures DetailsTable(raw, pr) == [] <==> |raw.text| == 0 || (raw.parsed.Some? && !HasTable(raw))
    ensures |raw.text| > 0 && raw.parsed.None? ==> DetailsTable(raw, pr) == [[raw.text]]
  {
  }

  /**
   * A decoded table: a heading row and then one row per item, every row with
   * one cell per heading, and the heading row holding the heading names.
   */
  lemma DetailsShape(raw: RawDetails, pr: Printer)
    requires HasTable(raw)
    ensures var rows := DetailsTable(raw, pr); var d := raw.parsed.value;
      && |rows| == |d.items| + 1
      && (forall i :: 0 <= i < |rows| ==> |rows[i]| == |d.headings|)
      && (forall j :: 0 <= j < |d.headings| ==> rows[0][j] == HeadingName(d.headings[j]))
  {
    var d := raw.parsed.value;
    var (names, keys, units) := ColumnLists(d.headings);
    ColumnListsAt(d.headings);
    ItemRowsAt(d.items, keys, units, pr);
    forall i | 0 <= i < |d.items| ensures |RowCells(d.items[i], keys, units, pr)| == |d.headings| {
      RowCellsAt(d.items[i], keys, units, pr);
    }
  }

  /** Cell `j` of item row `i` is the item's value under the key of heading `j`, coerced. */
  lemma DetailsCell(raw: RawDetails, pr: Printer, i: nat, j: nat)
    requires HasTable(raw) && i < |raw.parsed.value.items| && j < |raw.parsed.value.headings|
    ensures var rows := DetailsTable(raw, pr); var d := raw.parsed.value;
      i + 1 < |rows| && j < |rows[i + 1]| &&
      rows[i + 1][j] == ItemCell(d.items[i], d.headings[j].key, Unit(d.headings[j]), pr)
  {
    var d := raw.parsed.value;
    var (names, keys, units) := ColumnLists(d.headings);
    ColumnListsAt(d.headings);
    ItemRowsAt(d.items, keys, units, pr);
    var row := RowCells(d.items[i], keys, units, pr);
    RowCellsAt(d.items[i], keys, units, pr);
    assert DetailsTable(raw, pr) == [names] + ItemRows(d.items, keys, units, pr);
    assert DetailsTable(raw, pr)[i + 1] == row;
    assert row[j] == ItemCell(d.items[i], keys[j], units[j], pr);
  }

  /** Heading names never start or end with white space. */
  lemma HeadingsTrimmed(h: Heading)
    ensures var n := HeadingName(h); n == [] || (!IsSpace(n[0]) && !IsSpace(n[|n| - 1]))
  {
    TrimSpaceTrimmed(if h.text != "" then h.text else h.labelText);
  }

  /**
   * Cell coercion: a missing key gives an empty cell, a string is trimmed,
   * a number is printed without a trailing ".0" and followed by its unit
   * only for "ms" and "bytes" columns, and an object gives its "snippet"
   * string, else its "url" string, else its generic printing.
   */
  lemma ItemCellCases(item: map<string, Value>, h: Heading, pr: Printer)
    ensures h.key !in item ==> ItemCell(item, h.key, Unit(h), pr) == ""
    ensures h.key in item && item[h.key].Str? ==>
      ItemCell(item, h.key, Unit(h), pr) == TrimSpace(item[h.key].s)
    ensures h.key in item && item[h.key].Num? ==>
      var n := TrimSuffix(pr.fixed1(item[h.key].f), ".0");
      ItemCell(item, h.key, Unit(h), pr) == if h.itemType in {"ms", "bytes"} then n + " " + h.itemType else n
    ensures h.key in item && item[h.key].Obj? && "snippet" in item[h.key].fields && item[h.key].fields["snippet"].Str? ==>
      ItemCell(item, h.key, Unit(h), pr) == item[h.key].fields["snippet"].s
    ensures (h.key in item && item[h.key].Obj? && !("snippet" in item[h.key].fields && item[h.key].fields["snippet"].Str?) &&
      "url" in item[h.key].fields && item[h.key].fields["url"].Str?) ==>
      ItemCell(item, h.key, Unit(h), pr) == item[h.key].fields["url"].s
    ensures (h.key in item && item[h.key].Obj? && !("snippet" in item[h.key].fields && item[h.key].fields["snippet"].Str?) &&
      !("url" in item[h.key].fields && item[h.key].fields["url"].Str?)) ==>
      ItemCell(item, h.key, Unit(h), pr) == pr.sprint(item[h.key])
    ensures h.key in item && (item[h.key].Arr? || item[h.key].Bool? || item[h.key].Null?) ==>
      ItemCell(item, h.key, Unit(h), pr) == pr.sprint(item[h.key])
  {
  }

  /** One heading's column: its name, its key and its unit. */
  method Column(h: Heading) returns (heading: string, key: string, unit: string)
    ensures heading == HeadingName(h) && key == h.key && unit == Unit(h)
  {
    var name := "";
    if h.text != "" {
      name := h.text;
    } else if h.labelText != "" {
      name := h.labelText;
    }
    heading := TrimSpace(name);
    unit := "";
    if h.itemType == "ms" || h.itemType == "bytes" {
      unit := h.itemType;
    }
    key := h.key;
  }

  /** Builds the heading names, keys and units of a details table, one column per heading. */
  method Columns(hs: seq<Heading>) returns (headings: seq<string>, keys: seq<string>, units: seq<string>)
    ensures (headings, keys, units) == ColumnLists(hs)
  {
    headings, keys, units := [], [], [];
    var j := 0;
    while j < |hs|
      invariant 0 <= j <= |hs|
      invariant (headings, keys, units) == ColumnLists(hs[..j])
    {
      assert hs[..j + 1][..j] == hs[..j];
      var name, key, un := Column(hs[j]);
      headings := headings + [name];
      units := units + [un];
      keys := keys + [key];
      j := j + 1;
    }
    assert hs[..j] == hs;
  }

  /** Builds the row of one item from the column keys and units. */
  method BuildRow(item: map<string, Value>, keys: seq<string>, units: seq<string>, pr: Printer) returns (row: seq<string>)
    requires |units| == |keys|
    ensures row == RowCells(item, keys, units, pr)
  {
    row := [];
    var k := 0;
    while k < |keys|
      invariant 0 <= k <= |keys|
      invariant row == RowCells(item, keys[..k], units[..k], pr)
    {
      assert keys[..k + 1][..k] == keys[..k] && units[..k + 1][..k] == units[..k];
      row := row + [ItemCell(item, keys[k], units[k], pr)];
      k := k + 1;
    }
    assert keys[..k] == keys && units[..k] == units;
  }

  /** `getDetails`: the details table of an audit. */
  method GetDetails(raw: RawDetails, pr: Printer) returns (rows: seq<seq<string>>)
    ensures rows == DetailsTable(raw, pr)
  {
    if |raw.text| == 0 {
      return [];
    }
    if raw.parsed.None? {
      return [[raw.text]];
    }
    var d := raw.parsed.value;
    if |d.headings| == 0 || |d.items| == 0 {
      return [];
    }
    var headings, keys, units := Columns(d.headings);
    ColumnListsLen(d.headings);
    var body := BuildRows(d.items, keys, units, pr);
    rows := [headings] + body;
  }

  /** The item loop of `getDetails`: one row per item, in order. */
  method BuildRows(items: seq<map<string, Value>>, keys: seq<string>, units: seq<string>, pr: Printer) returns (rows: seq<seq<string>>)
    requires |units| == |keys|
    ensures rows == ItemRows(items, keys, units, pr)
  {
    rows := [];
    var i := 0;
    while i < |items|
      invariant 0 <= i <= |items|
      invariant rows == ItemRows(items[..i], keys, units, pr)
    {
      assert items[..i + 1][..i] == items[..i];
      var row := BuildRow(items[i], keys, units, pr);
      rows := rows + [row];
      i := i + 1;
    }
    assert items[..i] == items;
  }

  // ---------------------------------------------------------------------
  // readReport
  // ---------------------------------------------------------------------

  /** The category slots in the order Chrome DevTools shows them. */
  function Order(c: LhrCategories): seq<Option<LhrCategory>>
  {
    [c.performance, c.accessibility, c.bestPractices, c.seo, c.pwa]
  }

  /** The categories that are present, in slot order. */
  function Present(cs: seq<Option<LhrCategory>>): seq<LhrCategory>
  {
    if cs == [] then []
    else
      var ps := Present(cs[..|cs| - 1]);
      if cs[|cs| - 1].Some? then ps + [cs[|cs| - 1].value] else ps
  }

  /** Present categories of a concatenation are those of each part, in order. */
  lemma {:induction false} PresentConcat(a: seq<Option<LhrCategory>>, b: seq<Option<LhrCategory>>)
    ensures Present(a + b) == Present(a) + Present(b)
    decreases |b|
  {
    if b != [] {
      var b' := b[..|b| - 1];
      assert (a + b)[..|a + b| - 1] == a + b';
      PresentConcat(a, b');
    } else {
      assert a + b == a;
    }
  }

  /** A category is listed exactly when its slot holds it. */
  lemma {:induction false} PresentMembers(cs: seq<Option<LhrCategory>>)
    ensures forall c :: c in Present(cs) <==> Some(c) in cs
  {
    if cs != [] {
      var front := cs[..|cs| - 1];
      PresentMembers(front);
      assert cs == front + [cs[|cs| - 1]];
    }
  }

  /** With every slot filled, the five categories appear in DevTools order. */
  lemma PresentAllFive(c: LhrCategories)
    requires c.performance.Some? && c.accessibility.Some? && c.bestPractices.Some? && c.seo.Some? && c.pwa.Some?
    ensures Present(Order(c)) ==
      [c.performance.value, c.accessibility.value, c.bestPractices.value, c.seo.value, c.pwa.value]
  {
    var o := Order(c);
    assert o[..1][..0] == [];
    assert o[..2][..1] == o[..1];
    assert o[..3][..2] == o[..2];
    assert o[..4][..3] == o[..3];
    assert o[..|o| - 1] == o[..4];
    assert Present(o[..1]) == [c.performance.value];
    assert Present(o[..2]) == [c.performance.value, c.accessibility.value];
    assert Present(o[..3]) == [c.performance.value, c.accessibility.value, c.bestPractices.value];
    assert Present(o[..4]) == [c.performance.value, c.accessibility.value, c.bestPractices.value, c.seo.value];
  }

  /** The categories of a response that are present, in DevTools order. */
  function Listed(res: Response): seq<LhrCategory>
  {
    Present(Order(res.categories))
  }

  /** Every audit reference of `c` names an audit of the response. */
  predicate Complete(c: LhrCategory, audits: map<string, LhrAudit>)
  {
    forall k :: 0 <= k < |c.auditRefs| ==> c.auditRefs[k] in audits
  }

  /** Index of the first reference missing from `audits`, or the number of references when none is. */
  function FirstMissing(refs: seq<string>, audits: map<string, LhrAudit>): (k: nat)
    ensures k <= |refs|
    ensures k < |refs| ==> refs[k] !in audits
    ensures forall m :: 0 <= m < k ==> refs[m] in audits
  {
    if refs == [] then 0
    else if refs[0] !in audits then 0
    else 1 + FirstMissing(refs[1..], audits)
  }

  /** Index of the first category with a missing audit, or the number of categories when none has one. */
  function FirstIncomplete(cs: seq<LhrCategory>, audits: map<string, LhrAudit>): (n: nat)
    ensures n <= |cs|
    ensures n < |cs| ==> !Complete(cs[n], audits)
    ensures forall m :: 0 <= m < n ==> Complete(cs[m], audits)
  {
    if cs == [] then 0
    else if !Complete(cs[0], audits) then 0
    else 1 + FirstIncomplete(cs[1..], audits)
  }

  /** The audit of the report for one audit of the response; `readReport` never sets a value. */
  function ToAudit(a: LhrAudit, pr: Printer): Audit
  {
    Audit(a.title, Score100(a.score), "", DetailsTable(a.details, pr))
  }

  /** The category of the report for a category all of whose audits exist, one audit per reference. */
  function ToCategory(c: LhrCategory, audits: map<string, LhrAudit>, pr: Printer): Category
    requires Complete(c, audits)
  {
    Category(c.title, CategoryAbbrev(c.id), Score100(c.score),
      seq(|c.auditRefs|, k requires 0 <= k < |c.auditRefs| => ToAudit(audits[c.auditRefs[k]], pr)))
  }

  /** One category of the report, or the error naming its first missing audit. */
  function CategoryOf(c: LhrCategory, audits: map<string, LhrAudit>, pr: Printer): Result<Category, MissingAudit>
  {
    if Complete(c, audits) then Ok(ToCategory(c, audits, pr))
    else Err(MissingAudit(c.title, c.auditRefs[FirstMissing(c.auditRefs, audits)]))
  }

  /** What `readReport` returns for `res`. */
  function ReportOf(res: Response, pr: Printer): Result<Report, MissingAudit>
  {
    var ps := Listed(res);
    var n := FirstIncomplete(ps, res.audits);
    if n < |ps| then Err(CategoryOf(ps[n], res.audits, pr).error)
    else Ok(Report(res.id, seq(|ps|, i requires 0 <= i < |ps| => ToCategory(ps[i], res.audits, pr))))
  }

  /** A category and its audit loop: the audits follow the references, or the first missing one is reported. */
  method ReadCategory(c: LhrCategory, audits: map<string, LhrAudit>, pr: Printer) returns (r: Result<Category, MissingAudit>)
    ensures r == CategoryOf(c, audits, pr)
  {
    var auds: seq<Audit> := [];
    var k := 0;
    while k < |c.auditRefs|
      invariant 0 <= k <= |c.auditRefs| && |auds| == k
      invariant forall m :: 0 <= m < k ==> c.auditRefs[m] in audits
      invariant forall m :: 0 <= m < k ==> auds[m] == ToAudit(audits[c.auditRefs[m]], pr)
    {
      var id := c.auditRefs[k];
      if id !in audits {
        assert FirstMissing(c.auditRefs, audits) == k;
        return Err(MissingAudit(c.title, id));
      }
      var lhrAudit := audits[id];
      var details := GetDetails(lhrAudit.details, pr);
      auds := auds + [Audit(lhrAudit.title, Score100(lhrAudit.score), "", details)];
      k := k + 1;
    }
    r := Ok(Category(c.title, CategoryAbbrev(c.id), Score100(c.score), auds));
    assert auds == ToCategory(c, audits, pr).audits;
  }

  /** Locating the first incomplete category from its index. */
  lemma FirstIncompleteAt(cs: seq<LhrCategory>, audits: map<string, LhrAudit>, n: nat)
    requires n < |cs| && !Complete(cs[n], audits)
    requires forall m :: 0 <= m < n ==> Complete(cs[m], audits)
    ensures FirstIncomplete(cs, audits) == n
  {
  }

  /** `readReport`: the categories present, in DevTools order, or the first missing audit. */
  method ReadReport(res: Response, pr: Printer) returns (r: Result<Report, MissingAudit>)
    ensures r == ReportOf(res, pr)
  {
    var order := Order(res.categories);
    ghost var ps := Present(order);
    var cats: seq<Category> := [];
    var i := 0;
    while i < |order|
      invariant 0 <= i <= |order|
      invariant var done := Present(order[..i]);
        && |cats| == |done|
        && (forall m :: 0 <= m < |done| ==> Complete(done[m], res.audits))
        && (forall m :: 0 <= m < |done| ==> cats[m] == ToCategory(done[m], res.audits, pr))
    {
      ghost var done := Present(order[..i]);
      assert order[..i + 1][..i] == order[..i];
      if order[i].Some? {
        var lhrCat := order[i].value;
        var cat := ReadCategory(lhrCat, res.audits, pr);
        if cat.Err? {
          ErrorAt(order, i, done, res.audits);
          return Err(cat.error);
        }
        cats := cats + [cat.value];
      }
      i := i + 1;
    }
    assert order[..i] == order;
    assert FirstIncomplete(ps, res.audits) == |ps|;
    assert cats == seq(|ps|, m requires 0 <= m < |ps| => ToCategory(ps[m], res.audits, pr));
    r := Ok(Report(res.id, cats));
  }

  /** A category at slot `i` whose predecessors were all complete is the first incomplete one. */
  lemma ErrorAt(order: seq<Option<LhrCategory>>, i: nat, done: seq<LhrCategory>, audits: map<string, LhrAudit>)
    requires i < |order| && order[i].Some? && !Complete(order[i].value, audits)
    requires done == Present(order[..i])
    requires forall m :: 0 <= m < |done| ==> Complete(done[m], audits)
    ensures var ps := Present(order); |done| < |ps| && FirstIncomplete(ps, audits) == |done| && ps[|done|] == order[i].value
  {
    assert order == order[..i + 1] + order[i + 1..];
    PresentConcat(order[..i + 1], order[i + 1..]);
    assert order[..i + 1][..i] == order[..i];
    var ps := Present(order);
    assert ps == done + [order[i].value] + Present(order[i + 1..]);
    FirstIncompleteAt(ps, audits, |done|);
  }

  /** `readReport` succeeds exactly when every present category has all its audits. */
  lemma ReportOfOk(res: Response, pr: Printer)
    ensures var ps := Listed(res);
      ReportOf(res, pr).Ok? <==> forall i :: 0 <= i < |ps| ==> Complete(ps[i], res.audits)
  {
    var ps := Listed(res);
    var n := FirstIncomplete(ps, res.audits);
    if n < |ps| {
      assert !Complete(ps[n], res.audits);
    }
  }

  /**
   * A successful report: the response id as URL, one category per present
   * category in DevTools order, and per category one audit per reference,
   * in reference order, with the referenced audit's title, score and
   * details and an empty value.
   */
  lemma ReportOfContents(res: Response, pr: Printer)
    requires ReportOf(res, pr).Ok?
    ensures var rep := ReportOf(res, pr).value; var ps := Listed(res);
      && rep.url == res.id
      && |rep.categories| == |ps|
      && forall i :: 0 <= i < |ps| ==>
        var cat := rep.categories[i];
        && cat.title == ps[i].title && cat.abbrev == CategoryAbbrev(ps[i].id) && cat.score == Score100(ps[i].score)
        && |cat.audits| == |ps[i].auditRefs|
        && forall k :: 0 <= k < |cat.audits| ==>
          var a := res.audits[ps[i].auditRefs[k]];
          cat.audits[k] == Audit(a.title, Score100(a.score), "", DetailsTable(a.details, pr))
  {
  }

  /**
   * A failed report names a present category whose predecessors are all
   * complete, and the first of its references that has no audit.
   */
  lemma ReportOfError(res: Response, pr: Printer)
    requires ReportOf(res, pr).Err?
    ensures exists n, k ::
              && 0 <= n < |Listed(res)| && 0 <= k < |Listed(res)[n].auditRefs|
              && (forall m :: 0 <= m < n ==> Complete(Listed(res)[m], res.audits))
              && (forall m :: 0 <= m < k ==> Listed(res)[n].auditRefs[m] in res.audits)
              && Listed(res)[n].auditRefs[k] !in res.audits
              && ReportOf(res, pr).error == MissingAudit(Listed(res)[n].title, Listed(res)[n].auditRefs[k])
  {
    var ps := Listed(res);
    var n := FirstIncomplete(ps, res.audits);
    var k := FirstMissing(ps[n].auditRefs, res.audits);
    assert 0 <= n < |ps| && 0 <= k < |ps[n].auditRefs|
      && (forall m :: 0 <= m < n ==> Complete(ps[m], res.audits))
      && (forall m :: 0 <= m < k ==> ps[n].auditRefs[m] in res.audits)
      && ps[n].auditRefs[k] !in res.audits
      && ReportOf(res, pr).error == MissingAudit(ps[n].title, ps[n].auditRefs[k]);
  }
}
