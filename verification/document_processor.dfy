/** The decision and reshaping rules of the document-processor handler:
    the overall confidence of a Document Understanding result, the review
    flag it raises against the threshold, and the mapping of the result's
    labelled fields and table rows onto the internal invoice schema. */
module DocumentProcessor {
  import opened Wrappers
  import opened Json

  /** `DU_CONFIDENCE_THRESHOLD` when the environment does not set it. */
  const DefaultConfidenceThreshold: real := 0.85

  // ---------------------------------------------------------------------
  // The Document Understanding result. Every key the handler probes with
  // `in` or `.get` is optional.
  // ---------------------------------------------------------------------

  datatype FieldType = FieldType(name: Option<string>)

  datatype FieldValue = FieldValue(text: Option<Value>, value: Option<Value>)

  datatype DocumentField = DocumentField(
    fieldType: Option<FieldType>,
    fieldValue: Option<FieldValue>,
    confidence: Option<real>)

  datatype Cell = Cell(text: Option<Value>)

  datatype Row = Row(rowType: Option<Value>, cells: Option<seq<Cell>>)

  datatype Table = Table(rows: Option<seq<Row>>)

  datatype Page = Page(documentFields: Option<seq<DocumentField>>, tables: Option<seq<Table>>)

  datatype DuResult = DuResult(pages: Option<seq<Page>>)

  function PagesOf(du: DuResult): seq<Page> {
    du.pages.GetOr([])
  }

  function FieldsOf(p: Page): seq<DocumentField> {
    p.documentFields.GetOr([])
  }

  function TablesOf(p: Page): seq<Table> {
    p.tables.GetOr([])
  }

  function RowsOf(t: Table): seq<Row> {
    t.rows.GetOr([])
  }

  // ---------------------------------------------------------------------
  // Confidence scoring
  // ---------------------------------------------------------------------

  /** The `confidence` of every field that carries one, in field order. */
  function FieldConfidences(fs: seq<DocumentField>): (cs: seq<real>)
    ensures |cs| <= |fs|
    ensures forall x :: x in cs <==> exists m :: 0 <= m < |fs| && fs[m].confidence == Some(x)
  {
    if |fs| == 0 then []
    else
      var last := fs[|fs| - 1];
      var init := FieldConfidences(fs[..|fs| - 1]);
      assert forall m :: 0 <= m < |fs| - 1 ==> fs[..|fs| - 1][m] == fs[m];
      match last.confidence
      case Some(c) => init + [c]
      case None => init
  }

  /** A field carrying confidence `x` sits at position `m` of page `k`. */
  predicate ConfidenceAt(ps: seq<Page>, k: int, m: int, x: real) {
    0 <= k < |ps| && 0 <= m < |FieldsOf(ps[k])| && FieldsOf(ps[k])[m].confidence == Some(x)
  }

  /** Every present field confidence, in page then field order. */
  function PageConfidences(ps: seq<Page>): seq<real> {
    if |ps| == 0 then [] else PageConfidences(ps[..|ps| - 1]) + FieldConfidences(FieldsOf(ps[|ps| - 1]))
  }

  /** The collected values are exactly the confidences present on some
      field of some page: none is invented and none is missed. */
  lemma {:induction false} PageConfidencesMembers(ps: seq<Page>)
    ensures forall x :: x in PageConfidences(ps) <==> exists k, m :: ConfidenceAt(ps, k, m, x)
  {
    if |ps| > 0 {
      var n := |ps| - 1;
      var init, last := PageConfidences(ps[..n]), FieldConfidences(FieldsOf(ps[n]));
      PageConfidencesMembers(ps[..n]);
      forall x | x in PageConfidences(ps)
        ensures exists k, m :: ConfidenceAt(ps, k, m, x)
      {
        if x in init {
          var k, m :| ConfidenceAt(ps[..n], k, m, x);
          assert ConfidenceAt(ps, k, m, x);
        } else {
          var m :| 0 <= m < |FieldsOf(ps[n])| && FieldsOf(ps[n])[m].confidence == Some(x);
          assert ConfidenceAt(ps, n, m, x);
        }
      }
      forall x, k, m | ConfidenceAt(ps, k, m, x)
        ensures x in PageConfidences(ps)
      {
        if k < n {
          assert ConfidenceAt(ps[..n], k, m, x);
        } else {
          assert FieldsOf(ps[n])[m].confidence == Some(x);
        }
      }
    }
  }

  function Confidences(du: DuResult): seq<real> {
    PageConfidences(PagesOf(du))
  }

  function Sum(xs: seq<real>): real {
    if |xs| == 0 then 0.0 else Sum(xs[..|xs| - 1]) + xs[|xs| - 1]
  }

  /** The arithmetic mean, and 0.0 for no values at all. */
  function Mean(xs: seq<real>): (m: real)
    ensures |xs| == 0 ==> m == 0.0
    ensures |xs| > 0 ==> m * (|xs| as real) == Sum(xs)
  {
    if |xs| == 0 then 0.0 else Sum(xs) / (|xs| as real)
  }

  /** `calculate_overall_confidence`: the mean of every field confidence
      across every page, 0.0 when no field has one. */
  function OverallConfidence(du: DuResult): (score: real)
    ensures (forall k, m, x :: !ConfidenceAt(PagesOf(du), k, m, x)) ==> score == 0.0
    ensures |Confidences(du)| > 0 ==> score * (|Confidences(du)| as real) == Sum(Confidences(du))
  {
    var cs := PageConfidences(PagesOf(du));
    PageConfidencesMembers(PagesOf(du));
    assert |cs| > 0 ==> cs[0] in cs && exists k, m :: ConfidenceAt(PagesOf(du), k, m, cs[0]);
    Mean(cs)
  }

  /** The handler's loops: collect the confidences page by page, field by
      field, then divide their sum by their count. */
  method CalculateOverallConfidence(du: DuResult) returns (score: real)
    ensures score == OverallConfidence(du)
  {
    var confidences: seq<real> := [];
    var pages := PagesOf(du);
    var i := 0;
    while i < |pages|
      invariant 0 <= i <= |pages|
      invariant confidences == PageConfidences(pages[..i])
    {
      var fields := FieldsOf(pages[i]);
      var j := 0;
      while j < |fields|
        invariant 0 <= j <= |fields|
        invariant confidences == PageConfidences(pages[..i]) + FieldConfidences(fields[..j])
      {
        assert fields[..j + 1][..j] == fields[..j];
        if fields[j].confidence.Some? {
          confidences := confidences + [fields[j].confidence.value];
        }
        j := j + 1;
      }
      assert fields[..j] == fields;
      assert pages[..i + 1][..i] == pages[..i];
      i := i + 1;
    }
    assert pages[..i] == pages;
    if |confidences| == 0 {
      return 0.0;
    }
    var total := 0.0;
    var n := 0;
    while n < |confidences|
      invariant 0 <= n <= |confidences|
      invariant total == Sum(confidences[..n])
    {
      assert confidences[..n + 1][..n] == confidences[..n];
      total := total + confidences[n];
      n := n + 1;
    }
    assert confidences[..n] == confidences;
    score := total / (|confidences| as real);
  }

  datatype Status = Extracted | NeedsValidation

  /** Step 4 of the handler: review is needed exactly when the score is
      strictly below the threshold, and the status follows the flag. */
  function ClassifyConfidence(score: real, threshold: real): (r: (bool, Status))
    ensures r.0 <==> score < threshold
    ensures r.1 == NeedsValidation <==> score < threshold
    ensures r.1 == Extracted <==> threshold <= score
  {
    var needs := score < threshold;
    (needs, if needs then NeedsValidation else Extracted)
  }

  // ---------------------------------------------------------------------
  // Schema mapping
  // ---------------------------------------------------------------------

  datatype Section = Vendor | InvoiceDetails | Totals

  function SectionName(s: Section): string {
    match s
    case Vendor => "vendor"
    case InvoiceDetails => "invoice_details"
    case Totals => "totals"
  }

  /** Where a mapped field lands: `invoice_data[section][key]`. */
  datatype Target = Target(section: Section, key: string)

  /** `field_mapping`: Document Understanding field type to schema slot. */
  const FieldMapping: map<string, Target> := map[
    "VendorName" := Target(Vendor, "name"),
    "VendorAddress" := Target(Vendor, "address"),
    "VendorTaxId" := Target(Vendor, "tax_id"),
    "InvoiceNumber" := Target(InvoiceDetails, "number"),
    "InvoiceDate" := Target(InvoiceDetails, "date"),
    "DueDate" := Target(InvoiceDetails, "due_date"),
    "PurchaseOrder" := Target(InvoiceDetails, "po_number"),
    "SubTotal" := Target(Totals, "subtotal"),
    "Tax" := Target(Totals, "tax"),
    "Total" := Target(Totals, "total"),
    "Currency" := Target(Totals, "currency")
  ]

  /** The key of `confidence_scores` for a slot: `"section.key"`. */
  function ScoreKey(t: Target): string {
    SectionName(t.section) + "." + t.key
  }

  /** One `{"cells": [...]}` entry of `line_items`. */
  datatype LineItem = LineItem(cells: seq<Value>)

  /** The `invoice_data` dict the handler builds. */
  datatype InvoiceData = InvoiceData(
    extractionTimestamp: string,
    extractionMethod: string,
    vendor: map<string, Value>,
    invoiceDetails: map<string, Value>,
    lineItems: seq<LineItem>,
    totals: map<string, Value>,
    confidenceScores: map<string, real>,
    overallConfidence: Option<real>)

  /** The record as it is first built; the timestamp is a parameter. */
  function EmptyInvoice(timestamp: string): InvoiceData {
    InvoiceData(timestamp, "OCI_DOCUMENT_UNDERSTANDING", map[], map[], [], map[], map[], None)
  }

  function SectionOf(d: InvoiceData, s: Section): map<string, Value> {
    match s
    case Vendor => d.vendor
    case InvoiceDetails => d.invoiceDetails
    case Totals => d.totals
  }

  /** `invoice_data[section][key] = value`. */
  function WithEntry(d: InvoiceData, s: Section, key: string, v: Value): (r: InvoiceData)
    ensures SectionOf(r, s) == SectionOf(d, s)[key := v]
    ensures forall s' :: s' != s ==> SectionOf(r, s') == SectionOf(d, s')
    ensures r.lineItems == d.lineItems && r.confidenceScores == d.confidenceScores
    ensures r.extractionTimestamp == d.extractionTimestamp && r.extractionMethod == d.extractionMethod
    ensures r.overallConfidence == d.overallConfidence
  {
    match s
    case Vendor => d.(vendor := d.vendor[key := v])
    case InvoiceDetails => d.(invoiceDetails := d.invoiceDetails[key := v])
    case Totals => d.(totals := d.totals[key := v])
  }

  /** `field.get("fieldType", {}).get("name", "")`. */
  function TypeName(f: DocumentField): string {
    match f.fieldType
    case None => ""
    case Some(t) => t.name.GetOr("")
  }

  /** The field's `text`, else its `value`, else nothing. */
  function FieldText(f: DocumentField): (r: Option<Value>)
    ensures f.fieldValue.Some? && f.fieldValue.value.text.Some? ==> r == f.fieldValue.value.text
    ensures f.fieldValue.Some? && f.fieldValue.value.text.None? ==> r == f.fieldValue.value.value
    ensures f.fieldValue.None? ==> r.None?
  {
    match f.fieldValue
    case None => None
    case Some(fv) => if fv.text.Some? then fv.text else fv.value
  }

  /** The slot a field is written to: it has a usable value and a mapped type. */
  function FieldTarget(f: DocumentField): Option<Target> {
    if FieldText(f).Some? && TypeName(f) in FieldMapping then Some(FieldMapping[TypeName(f)]) else None
  }

  /** One iteration of the field loop. */
  function ApplyField(d: InvoiceData, f: DocumentField): (r: InvoiceData)
    ensures FieldText(f).None? ==> r == d
    ensures TypeName(f) !in FieldMapping ==> r == d
    ensures FieldTarget(f).Some? ==>
              var t := FieldTarget(f).value;
              && SectionOf(r, t.section) == SectionOf(d, t.section)[t.key := FieldText(f).value]
              && (forall s :: s != t.section ==> SectionOf(r, s) == SectionOf(d, s))
              && r.confidenceScores == d.confidenceScores[ScoreKey(t) := f.confidence.GetOr(0.0)]
              && r.lineItems == d.lineItems
  {
    match FieldText(f)
    case None => d
    case Some(v) =>
      if TypeName(f) in FieldMapping then
        var t := FieldMapping[TypeName(f)];
        WithEntry(d, t.section, t.key, v).(confidenceScores := d.confidenceScores[ScoreKey(t) := f.confidence.GetOr(0.0)])
      else d
  }

  /** The field loop of one page, as the state after each prefix. */
  function ApplyFields(d: InvoiceData, fs: seq<DocumentField>): (r: InvoiceData)
    ensures r.lineItems == d.lineItems
    ensures r.extractionTimestamp == d.extractionTimestamp && r.extractionMethod == d.extractionMethod
    ensures r.overallConfidence == d.overallConfidence
  {
    if |fs| == 0 then d else ApplyField(ApplyFields(d, fs[..|fs| - 1]), fs[|fs| - 1])
  }

  /** `row.get("rowType") != "header"`: a row without a type is kept. */
  predicate IsDataRow(r: Row) {
    r.rowType != Some(Str("header"))
  }

  /** `{"cells": [cell.get("text", "") for cell in row.get("cells", [])]}`. */
  function ItemOf(r: Row): (item: LineItem)
    ensures |item.cells| == |r.cells.GetOr([])|
    ensures forall k :: 0 <= k < |item.cells| ==> item.cells[k] == r.cells.GetOr([])[k].text.GetOr(Str(""))
  {
    var cs := r.cells.GetOr([]);
    LineItem(seq(|cs|, k requires 0 <= k < |cs| => cs[k].text.GetOr(Str(""))))
  }

  /** The line items of a run of rows: one per data row, in row order. */
  function RowItems(rows: seq<Row>): (items: seq<LineItem>)
    ensures |items| <= |rows|
    ensures forall x :: x in items <==> exists k :: 0 <= k < |rows| && IsDataRow(rows[k]) && x == ItemOf(rows[k])
  {
    if |rows| == 0 then []
    else
      var init := RowItems(rows[..|rows| - 1]);
      assert forall k :: 0 <= k < |rows| - 1 ==> rows[..|rows| - 1][k] == rows[k];
      var last := rows[|rows| - 1];
      if IsDataRow(last) then init + [ItemOf(last)] else init
  }

  function TableItems(ts: seq<Table>): seq<LineItem> {
    if |ts| == 0 then [] else TableItems(ts[..|ts| - 1]) + RowItems(RowsOf(ts[|ts| - 1]))
  }

  /** One iteration of the page loop: the page's fields, then its tables. */
  function ApplyPage(d: InvoiceData, p: Page): (r: InvoiceData)
    ensures r.extractionTimestamp == d.extractionTimestamp && r.extractionMethod == d.extractionMethod
    ensures r.overallConfidence == d.overallConfidence
  {
    var d' := ApplyFields(d, FieldsOf(p));
    d'.(lineItems := d'.lineItems + TableItems(TablesOf(p)))
  }

  function ApplyPages(d: InvoiceData, ps: seq<Page>): (r: InvoiceData)
    ensures r.extractionTimestamp == d.extractionTimestamp && r.extractionMethod == d.extractionMethod
    ensures r.overallConfidence == d.overallConfidence
  {
    if |ps| == 0 then d else ApplyPage(ApplyPages(d, ps[..|ps| - 1]), ps[|ps| - 1])
  }

  /** `transform_du_to_invoice_schema`. */
  function TransformDuToInvoiceSchema(du: DuResult, timestamp: string): (r: InvoiceData)
    ensures r.extractionMethod == "OCI_DOCUMENT_UNDERSTANDING"
    ensures r.extractionTimestamp == timestamp
    ensures r.overallConfidence.None?
    ensures PagesOf(du) == [] ==> r == EmptyInvoice(timestamp)
  {
    ApplyPages(EmptyInvoice(timestamp), PagesOf(du))
  }

  // ---------------------------------------------------------------------
  // The handler's decision
  // ---------------------------------------------------------------------

  /** The success payload of the handler. */
  datatype ExtractionOutcome = ExtractionOutcome(
    invoiceId: Value,
    status: Status,
    overallConfidence: real,
    needsGenaiValidation: bool,
    invoiceData: InvoiceData,
    rawDuResult: DuResult)

  /** Steps 2 to 4 of `handler`, once the result has been fetched. */
  function ProcessExtraction(invoiceId: Value, du: DuResult, threshold: real, timestamp: string): (r: ExtractionOutcome)
    ensures r.overallConfidence == OverallConfidence(du)
    ensures r.invoiceData == TransformDuToInvoiceSchema(du, timestamp).(overallConfidence := Some(r.overallConfidence))
    ensures r.needsGenaiValidation <==> r.overallConfidence < threshold
    ensures r.status == NeedsValidation <==> r.needsGenaiValidation
    ensures r.invoiceData.overallConfidence == Some(r.overallConfidence)
    ensures r.invoiceData.lineItems == TransformDuToInvoiceSchema(du, timestamp).lineItems
    ensures r.invoiceData.confidenceScores == TransformDuToInvoiceSchema(du, timestamp).confidenceScores
    ensures r.rawDuResult == du && r.invoiceId == invoiceId
  {
    var score := OverallConfidence(du);
    var data := TransformDuToInvoiceSchema(du, timestamp).(overallConfidence := Some(score));
    var (needs, status) := ClassifyConfidence(score, threshold);
    ExtractionOutcome(invoiceId, status, score, needs, data, du)
  }
}
