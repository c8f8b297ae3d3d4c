/**
 * The PDF export of the reports page (ReportsPage.jsx, `downloadPdf`): the
 * document is modelled by the trace of calls made on it, and the page cursor
 * `y` by an integer.
 */
module Reports {
  import opened Wrappers

  /** One `[key, value]` pair of `Object.entries`, the value already rendered by the template literal. */
  datatype Entry = Entry(key: string, value: string)

  /** One item of `feature_impact`, its importance already rendered. */
  datatype Impact = Impact(feature: string, importance: string)

  /** The `/report-summary` payload the page keeps in `report`. */
  datatype Report = Report(riskSummary: seq<Entry>, featureImpact: seq<Impact>, beforeSmote: seq<Entry>, afterSmote: seq<Entry>)

  /** A call made on the jsPDF document. */
  datatype Op = FontSize(size: int) | Line(text: string, x: int, y: int) | NewPage | SaveAs(fileName: string)

  const Title: string := "Amazon Supply Chain Intelligence - Risk Report"
  const FileName: string := "delivery-risk-report.pdf"
  /** Where the cursor starts on a page, and the height past which the feature loop breaks the page. */
  const PageTop: int := 15
  const PageLimit: int := 270

  /** The document being written: the calls made on it so far, in order. */
  class Pdf {
    var ops: seq<Op>

    constructor ()
      ensures ops == []
    {
      ops := [];
    }

    method SetFontSize(size: int)
      modifies this
      ensures ops == old(ops) + [FontSize(size)]
    {
      ops := ops + [FontSize(size)];
    }

    method Text(text: string, x: int, y: int)
      modifies this
      ensures ops == old(ops) + [Line(text, x, y)]
    {
      ops := ops + [Line(text, x, y)];
    }

    method AddPage()
      modifies this
      ensures ops == old(ops) + [NewPage]
    {
      ops := ops + [NewPage];
    }

    method Save(fileName: string)
      modifies this
      ensures ops == old(ops) + [SaveAs(fileName)]
    {
      ops := ops + [SaveAs(fileName)];
    }
  }

  function EntryText(prefix: string, e: Entry): string {
    prefix + e.key + ": " + e.value
  }

  function ImpactText(item: Impact): string {
    "- " + item.feature + ": " + item.importance
  }

  /** An entries loop that never breaks the page: one line per entry at x = 18, six below the previous. */
  function EntryLines(prefix: string, entries: seq<Entry>, y: int): seq<Op> {
    if entries == [] then []
    else
      var n := |entries| - 1;
      EntryLines(prefix, entries[..n], y) + [Line(EntryText(prefix, entries[n]), 18, y + 6 * n)]
  }

  /**
   * The `feature_impact` loop started with the cursor at `y`: its calls and
   * the cursor after it. A line that moves the cursor past the limit is
   * followed by a new page, and the cursor goes back to the top.
   */
  function ImpactLines(items: seq<Impact>, y: int): (seq<Op>, int) {
    if items == [] then ([], y)
    else
      var n := |items| - 1;
      var before := ImpactLines(items[..n], y);
      var line := Line(ImpactText(items[n]), 18, before.1);
      if before.1 + 6 > PageLimit then (before.0 + [line, NewPage], PageTop)
      else (before.0 + [line], before.1 + 6)
  }

  /** The cursor where the feature lines start: below the title, the risk summary and the heading. */
  function FeatureTop(r: Report): int {
    32 + 6 * |r.riskSummary| + 4 + 7
  }

  /** The class-distribution section, its heading written with the cursor at `y` + 4. */
  function ClassLines(r: Report, y: int): seq<Op> {
    [Line("Class Distribution:", 14, y + 4)]
    + EntryLines("Before SMOTE - ", r.beforeSmote, y + 11)
    + EntryLines("After SMOTE - ", r.afterSmote, y + 11 + 6 * |r.beforeSmote|)
  }

  /** The title at font size 16, then the first heading at size 12. */
  const Opening: seq<Op> := [FontSize(16), Line(Title, 14, PageTop), FontSize(12), Line("Risk Summary:", 14, 25)]

  /** The three sections under the title: risk summary, feature impact, class distribution. */
  function Body(r: Report): seq<Op> {
    var features := ImpactLines(r.featureImpact, FeatureTop(r));
    EntryLines("- ", r.riskSummary, 32)
    + [Line("Feature Impact:", 14, FeatureTop(r) - 7)]
    + features.0
    + ClassLines(r, features.1)
  }

  /** Every call `downloadPdf` makes for a loaded report, in order. */
  function Layout(r: Report): seq<Op> {
    Opening + Body(r) + [SaveAs(FileName)]
  }

  /** An `Object.entries(...).forEach` loop writing one line per entry. */
  method WriteEntries(doc: Pdf, prefix: string, entries: seq<Entry>, top: int) returns (y: int)
    modifies doc
    ensures doc.ops == old(doc.ops) + EntryLines(prefix, entries, top)
    ensures y == top + 6 * |entries|
  {
    y := top;
    for i := 0 to |entries|
      invariant doc.ops == old(doc.ops) + EntryLines(prefix, entries[..i], top)
      invariant y == top + 6 * i
    {
      assert entries[..i + 1][..i] == entries[..i];
      doc.Text(EntryText(prefix, entries[i]), 18, y);
      y := y + 6;
    }
    assert entries[..|entries|] == entries;
  }

  /** The `feature_impact.forEach` loop with its page breaks. */
  method WriteImpacts(doc: Pdf, items: seq<Impact>, top: int) returns (y: int)
    modifies doc
    ensures doc.ops == old(doc.ops) + ImpactLines(items, top).0
    ensures y == ImpactLines(items, top).1
  {
    y := top;
    for i := 0 to |items|
      invariant doc.ops == old(doc.ops) + ImpactLines(items[..i], top).0
      invariant y == ImpactLines(items[..i], top).1
    {
      assert items[..i + 1][..i] == items[..i];
      doc.Text(ImpactText(items[i]), 18, y);
      y := y + 6;
      if y > PageLimit {
        doc.AddPage();
        y := PageTop;
      }
    }
    assert items[..|items|] == items;
  }

  /** The class-distribution section: its heading, then the two entries loops. */
  method WriteClasses(doc: Pdf, r: Report, top: int)
    modifies doc
    ensures doc.ops == old(doc.ops) + ClassLines(r, top)
  {
    var y := top + 4;
    doc.Text("Class Distribution:", 14, y);
    y := y + 7;
    ghost var heading := doc.ops;
    y := WriteEntries(doc, "Before SMOTE - ", r.beforeSmote, y);
    y := WriteEntries(doc, "After SMOTE - ", r.afterSmote, y);
    assert doc.ops == old(doc.ops) + ClassLines(r, top);
  }

  /** The title at font size 16, then the first heading at size 12; returns the cursor below it. */
  method WriteOpening(doc: Pdf) returns (y: int)
    modifies doc
    ensures doc.ops == old(doc.ops) + Opening
    ensures y == 32
  {
    y := 15;
    doc.SetFontSize(16);
    doc.Text(Title, 14, y);
    y := y + 10;

    doc.SetFontSize(12);
    doc.Text("Risk Summary:", 14, y);
    y := y + 7;
  }

  /** The three sections, from the risk summary down, with the cursor starting at `top`. */
  method WriteBody(doc: Pdf, r: Report, top: int)
    requires top == 32
    modifies doc
    ensures doc.ops == old(doc.ops) + Body(r)
  {
    var y := WriteEntries(doc, "- ", r.riskSummary, top);

    y := y + 4;
    doc.Text("Feature Impact:", 14, y);
    y := y + 7;
    assert y == FeatureTop(r);
    y := WriteImpacts(doc, r.featureImpact, y);
    WriteClasses(doc, r, y);
  }

  /** `downloadPdf`: nothing without a report; otherwise the calls of `Layout`, made one by one. */
  method DownloadPdf(report: Option<Report>) returns (ops: seq<Op>)
    ensures report.None? ==> ops == []
    ensures report.Some? ==> ops == Layout(report.value)
  {
    if report.None? {
      return [];
    }
    var r := report.value;
    var doc := new Pdf();
    var y := WriteOpening(doc);
    WriteBody(doc, r, y);
    doc.Save(FileName);
    ops := doc.ops;
  }

  /** The texts written, in order; font changes, page breaks and the save write none. */
  function Texts(ops: seq<Op>): seq<string> {
    if ops == [] then []
    else (if ops[0].Line? then [ops[0].text] else []) + Texts(ops[1..])
  }

  /** How many pages the calls add. */
  function PageBreaks(ops: seq<Op>): nat {
    if ops == [] then 0
    else (if ops[0].NewPage? then 1 else 0) + PageBreaks(ops[1..])
  }

  lemma {:induction false} TextsAppend(a: seq<Op>, b: seq<Op>)
    ensures Texts(a + b) == Texts(a) + Texts(b)
    ensures PageBreaks(a + b) == PageBreaks(a) + PageBreaks(b)
  {
    if a == [] {
      assert a + b == b;
    } else {
      assert (a + b)[0] == a[0] && (a + b)[1..] == a[1..] + b;
      TextsAppend(a[1..], b);
    }
  }

  lemma OneOp(op: Op)
    ensures Texts([op]) == if op.Line? then [op.text] else []
    ensures PageBreaks([op]) == if op.NewPage? then 1 else 0
  {
    assert [op][1..] == [];
  }

  function EntryTexts(prefix: string, entries: seq<Entry>): (texts: seq<string>)
    ensures |texts| == |entries|
  {
    seq(|entries|, i requires 0 <= i < |entries| => EntryText(prefix, entries[i]))
  }

  function ImpactTexts(items: seq<Impact>): (texts: seq<string>)
    ensures |texts| == |items|
  {
    seq(|items|, i requires 0 <= i < |items| => ImpactText(items[i]))
  }

  /** An entries loop writes one line per entry, in order, and adds no page. */
  lemma {:induction false} EntryLinesTexts(prefix: string, entries: seq<Entry>, y: int)
    ensures Texts(EntryLines(prefix, entries, y)) == EntryTexts(prefix, entries)
    ensures PageBreaks(EntryLines(prefix, entries, y)) == 0
  {
    if entries != [] {
      var n := |entries| - 1;
      var line := Line(EntryText(prefix, entries[n]), 18, y + 6 * n);
      EntryLinesTexts(prefix, entries[..n], y);
      TextsAppend(EntryLines(prefix, entries[..n], y), [line]);
      assert EntryTexts(prefix, entries) == EntryTexts(prefix, entries[..n]) + [EntryText(prefix, entries[n])];
    }
  }

  /** The feature loop writes one line per item, in order, and adds at most one page per item. */
  lemma {:induction false} ImpactLinesTexts(items: seq<Impact>, y: int)
    ensures Texts(ImpactLines(items, y).0) == ImpactTexts(items)
    ensures PageBreaks(ImpactLines(items, y).0) <= |items|
  {
    if items != [] {
      var n := |items| - 1;
      var before := ImpactLines(items[..n], y);
      var line := Line(ImpactText(items[n]), 18, before.1);
      ImpactLinesTexts(items[..n], y);
      assert ImpactTexts(items) == ImpactTexts(items[..n]) + [ImpactText(items[n])];
      OneOp(line);
      OneOp(NewPage);
      if before.1 + 6 > PageLimit {
        assert [line, NewPage] == [line] + [NewPage];
        TextsAppend([line], [NewPage]);
        TextsAppend(before.0, [line, NewPage]);
      } else {
        TextsAppend(before.0, [line]);
      }
    }
  }

  /**
   * After each feature line the cursor is back on the page: at most the
   * limit and, from a start at or below the top, at least the top; so is
   * every feature line when the loop starts on the page.
   */
  lemma {:induction false} ImpactLinesStayOnPage(items: seq<Impact>, y: int)
    ensures items != [] ==> ImpactLines(items, y).1 <= PageLimit
    ensures y >= PageTop ==> ImpactLines(items, y).1 >= PageTop
    ensures y <= PageLimit ==> forall op :: op in ImpactLines(items, y).0 && op.Line? ==> op.y <= PageLimit
  {
    if items != [] {
      var n := |items| - 1;
      ImpactLinesStayOnPage(items[..n], y);
    }
  }

  /** No page break and no save among the calls. */
  predicate Plain(ops: seq<Op>) {
    forall op :: op in ops ==> !op.SaveAs? && !op.NewPage?
  }

  lemma {:induction false} EntryLinesPlain(prefix: string, entries: seq<Entry>, y: int)
    ensures Plain(EntryLines(prefix, entries, y))
  {
    if entries != [] {
      EntryLinesPlain(prefix, entries[..|entries| - 1], y);
    }
  }

  /** The class section writes its heading and one line per count, and adds no page. */
  lemma ClassLinesTexts(r: Report, y: int)
    ensures Texts(ClassLines(r, y)) == ["Class Distribution:"] + EntryTexts("Before SMOTE - ", r.beforeSmote)
      + EntryTexts("After SMOTE - ", r.afterSmote)
    ensures PageBreaks(ClassLines(r, y)) == 0 && Plain(ClassLines(r, y))
  {
    var heading := [Line("Class Distribution:", 14, y + 4)];
    var before := EntryLines("Before SMOTE - ", r.beforeSmote, y + 11);
    var after := EntryLines("After SMOTE - ", r.afterSmote, y + 11 + 6 * |r.beforeSmote|);
    OneOp(heading[0]);
    EntryLinesTexts("Before SMOTE - ", r.beforeSmote, y + 11);
    EntryLinesTexts("After SMOTE - ", r.afterSmote, y + 11 + 6 * |r.beforeSmote|);
    EntryLinesPlain("Before SMOTE - ", r.beforeSmote, y + 11);
    EntryLinesPlain("After SMOTE - ", r.afterSmote, y + 11 + 6 * |r.beforeSmote|);
    TextsAppend(heading, before);
    TextsAppend(heading + before, after);
  }

  /** The opening writes the title and the first heading. */
  lemma OpeningTexts()
    ensures Texts(Opening) == [Title, "Risk Summary:"] && PageBreaks(Opening) == 0 && Plain(Opening)
  {
    var o1, o2, o3, o4 := FontSize(16), Line(Title, 14, PageTop), FontSize(12), Line("Risk Summary:", 14, 25);
    OneOp(o1); OneOp(o2); OneOp(o3); OneOp(o4);
    assert [o1, o2, o3, o4] == [o1] + [o2] + [o3] + [o4];
    TextsAppend([o1], [o2]);
    TextsAppend([o1] + [o2], [o3]);
    TextsAppend([o1] + [o2] + [o3], [o4]);
  }

  /** `Layout` cut at its section boundaries, with what each section writes. */
  lemma LayoutSections(r: Report)
    returns (risk: seq<Op>, middle: seq<Op>, features: seq<Op>, classes: seq<Op>)
    ensures Layout(r) == Opening + Body(r) + [SaveAs(FileName)]
    ensures Body(r) == risk + middle + features + classes
    ensures Texts(Opening) == [Title, "Risk Summary:"] && PageBreaks(Opening) == 0 && Plain(Opening)
    ensures Texts([SaveAs(FileName)]) == [] && PageBreaks([SaveAs(FileName)]) == 0
    ensures Texts(risk) == EntryTexts("- ", r.riskSummary) && PageBreaks(risk) == 0 && Plain(risk)
    ensures Texts(middle) == ["Feature Impact:"] && PageBreaks(middle) == 0 && Plain(middle)
    ensures features == ImpactLines(r.featureImpact, FeatureTop(r)).0
    ensures Texts(classes) == ["Class Distribution:"] + EntryTexts("Before SMOTE - ", r.beforeSmote)
      + EntryTexts("After SMOTE - ", r.afterSmote)
    ensures PageBreaks(classes) == 0 && Plain(classes)
  {
    var impact := ImpactLines(r.featureImpact, FeatureTop(r));
    risk := EntryLines("- ", r.riskSummary, 32);
    middle := [Line("Feature Impact:", 14, FeatureTop(r) - 7)];
    features := impact.0;
    classes := ClassLines(r, impact.1);
    OpeningTexts();
    OneOp(middle[0]);
    OneOp(SaveAs(FileName));
    EntryLinesTexts("- ", r.riskSummary, 32);
    EntryLinesPlain("- ", r.riskSummary, 32);
    ClassLinesTexts(r, impact.1);
  }

  /**
   * The texts of a report, in order: the title, the risk summary under its
   * heading, the feature impacts under theirs, then the class counts before
   * and after SMOTE; each entry gives exactly one line.
   */
  lemma LayoutTexts(r: Report)
    ensures Texts(Layout(r)) ==
      [Title, "Risk Summary:"] + EntryTexts("- ", r.riskSummary)
      + ["Feature Impact:"] + ImpactTexts(r.featureImpact)
      + ["Class Distribution:"] + EntryTexts("Before SMOTE - ", r.beforeSmote)
      + EntryTexts("After SMOTE - ", r.afterSmote)
  {
    var risk, middle, features, classes := LayoutSections(r);
    ImpactLinesTexts(r.featureImpact, FeatureTop(r));
    TextsAppend(risk, middle);
    TextsAppend(risk + middle, features);
    TextsAppend(risk + middle + features, classes);
    TextsAppend(Opening, Body(r));
    TextsAppend(Opening + Body(r), [SaveAs(FileName)]);
  }

  /** Only the feature loop adds pages, and at most one per feature. */
  lemma LayoutPageBreaks(r: Report)
    ensures PageBreaks(Layout(r)) == PageBreaks(ImpactLines(r.featureImpact, FeatureTop(r)).0)
    ensures PageBreaks(Layout(r)) <= |r.featureImpact|
  {
    var risk, middle, features, classes := LayoutSections(r);
    ImpactLinesTexts(r.featureImpact, FeatureTop(r));
    TextsAppend(risk, middle);
    TextsAppend(risk + middle, features);
    TextsAppend(risk + middle + features, classes);
    TextsAppend(Opening, Body(r));
    TextsAppend(Opening + Body(r), [SaveAs(FileName)]);
  }

  /** The export starts at font size 16 and ends by saving, once, under the fixed file name. */
  lemma LayoutFrame(r: Report)
    ensures Layout(r)[0] == FontSize(16)
    ensures Layout(r)[|Layout(r)| - 1] == SaveAs("delivery-risk-report.pdf")
    ensures forall op :: op in Layout(r)[..|Layout(r)| - 1] ==> !op.SaveAs?
  {
    var risk, middle, features, classes := LayoutSections(r);
    ImpactLinesNoSave(r.featureImpact, FeatureTop(r));
    var body := Opening + Body(r);
    assert forall op :: op in Body(r) ==> op in risk || op in middle || op in features || op in classes;
    assert Layout(r)[..|Layout(r)| - 1] == body;
    assert body[0] == Opening[0];
  }

  lemma {:induction false} ImpactLinesNoSave(items: seq<Impact>, y: int)
    ensures forall op :: op in ImpactLines(items, y).0 ==> op.Line? || op.NewPage?
  {
    if items != [] {
      ImpactLinesNoSave(items[..|items| - 1], y);
    }
  }
}
