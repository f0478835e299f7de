/** Properties of the document-processor model that relate several calls:
    bounds of the score, the invariants the schema mapping keeps, which
    field wins a slot, and the order of the line items. */
module DocumentProcessorProofs {
  import opened Wrappers
  import opened Json
  import opened DocumentProcessor

  // ---------------------------------------------------------------------
  // The score
  // ---------------------------------------------------------------------

  lemma {:induction false} SumBetween(xs: seq<real>, lo: real, hi: real)
    requires forall k :: 0 <= k < |xs| ==> lo <= xs[k] <= hi
    ensures lo * (|xs| as real) <= Sum(xs) <= hi * (|xs| as real)
  {
    if |xs| > 0 {
      SumBetween(xs[..|xs| - 1], lo, hi);
    }
  }

  /** A mean lies between any lower and upper bound of the values. */
  lemma MeanBetween(xs: seq<real>, lo: real, hi: real)
    requires |xs| > 0
    requires forall k :: 0 <= k < |xs| ==> lo <= xs[k] <= hi
    ensures lo <= Mean(xs) <= hi
  {
    SumBetween(xs, lo, hi);
    var n := |xs| as real;
    var m := Mean(xs);
    assert m * n == Sum(xs);
  }

  /** The overall score lies between the least and the greatest field
      confidence; with every confidence in [0, 1] so is the score. */
  lemma OverallConfidenceBetween(du: DuResult, lo: real, hi: real)
    requires forall k, m, x :: ConfidenceAt(PagesOf(du), k, m, x) ==> lo <= x <= hi
    requires exists k, m, x :: ConfidenceAt(PagesOf(du), k, m, x)
    ensures lo <= OverallConfidence(du) <= hi
  {
    var cs := Confidences(du);
    PageConfidencesMembers(PagesOf(du));
    var k0, m0, x0 :| ConfidenceAt(PagesOf(du), k0, m0, x0);
    assert x0 in cs;
    forall j | 0 <= j < |cs|
      ensures lo <= cs[j] <= hi
    {
      assert cs[j] in cs;
    }
    MeanBetween(cs, lo, hi);
  }

  /** The first worked example: three fields scoring 0.9, 0.8 and 0.7. */
  lemma ThreeFieldMean()
    ensures Mean([0.9, 0.8, 0.7]) == 0.8
  {
    var xs := [0.9, 0.8, 0.7];
    assert [0.9][..0] == [];
    assert Sum([0.9]) == 0.9;
    assert [0.9, 0.8][..1] == [0.9];
    assert Sum([0.9, 0.8]) == 1.7;
    assert xs[..2] == [0.9, 0.8];
    assert Sum(xs) == 2.4;
  }

  /** Lowering a score never clears the flag, and raising it never sets
      the flag: the scores that need review are exactly those below the
      threshold, a downward-closed set. */
  lemma FlagIsDownwardClosed(lower: real, higher: real, threshold: real)
    requires lower <= higher
    ensures ClassifyConfidence(higher, threshold).0 ==> ClassifyConfidence(lower, threshold).0
    ensures !ClassifyConfidence(lower, threshold).0 ==> ClassifyConfidence(higher, threshold) == (false, Extracted)
  {
  }

  /** With the default threshold, 0.85 itself passes and 0.84 is flagged. */
  lemma DefaultThresholdBoundary()
    ensures ClassifyConfidence(0.85, DefaultConfidenceThreshold) == (false, Extracted)
    ensures ClassifyConfidence(0.84, DefaultConfidenceThreshold) == (true, NeedsValidation)
  {
  }

  /** A score equal to the threshold is accepted; one below it is flagged. */
  lemma ThresholdIsStrict(threshold: real, epsilon: real)
    requires epsilon > 0.0
    ensures ClassifyConfidence(threshold, threshold) == (false, Extracted)
    ensures ClassifyConfidence(threshold - epsilon, threshold) == (true, NeedsValidation)
  {
  }

  // ---------------------------------------------------------------------
  // The collected confidences, with their multiplicity and order
  // ---------------------------------------------------------------------

  /** One field contributes its confidence when it has one, and nothing
      otherwise. */
  lemma FieldConfidencesOne(f: DocumentField)
    ensures FieldConfidences([f]) == if f.confidence.Some? then [f.confidence.value] else []
  {
    assert [f][..0] == [];
  }

  /** The confidences of two runs of fields are those of the first followed
      by those of the second: every field is counted once, in order. */
  lemma {:induction false} FieldConfidencesAppend(a: seq<DocumentField>, b: seq<DocumentField>)
    ensures FieldConfidences(a + b) == FieldConfidences(a) + FieldConfidences(b)
    decreases |b|
  {
    if |b| == 0 {
      assert a + b == a;
    } else {
      var n := |b| - 1;
      assert (a + b)[..|a + b| - 1] == a + b[..n];
      assert (a + b)[|a + b| - 1] == b[n];
      FieldConfidencesAppend(a, b[..n]);
    }
  }

  /** The page loop collects the confidences of the flat run of all fields
      of all pages. */
  lemma {:induction false} PageConfidencesFlatten(ps: seq<Page>)
    ensures PageConfidences(ps) == FieldConfidences(AllFields(ps))
  {
    if |ps| > 0 {
      var n := |ps| - 1;
      PageConfidencesFlatten(ps[..n]);
      FieldConfidencesAppend(AllFields(ps[..n]), FieldsOf(ps[n]));
    }
  }

  /** A field that carries only a confidence. */
  function ScoredField(c: real): DocumentField {
    DocumentField(None, None, Some(c))
  }

  lemma RepeatedFieldsCollected()
    ensures FieldConfidences([ScoredField(0.9), ScoredField(0.9), ScoredField(0.3)]) == [0.9, 0.9, 0.3]
  {
    var a, b := ScoredField(0.9), ScoredField(0.3);
    assert [a][..0] == [];
    assert FieldConfidences([a]) == [0.9];
    assert [a, a][..1] == [a];
    assert FieldConfidences([a, a]) == [0.9, 0.9];
    assert [a, a, b][..2] == [a, a];
  }

  lemma RepeatedMean()
    ensures Mean([0.9, 0.9, 0.3]) == 0.7
  {
    var xs := [0.9, 0.9, 0.3];
    assert [0.9][..0] == [];
    assert Sum([0.9]) == 0.9;
    assert [0.9, 0.9][..1] == [0.9];
    assert Sum([0.9, 0.9]) == 1.8;
    assert xs[..2] == [0.9, 0.9];
    assert Sum(xs) == 2.1;
  }

  /** Repeated confidences are each counted: 0.9, 0.9 and 0.3 average to
      0.7, not to the 0.6 of the distinct values. */
  lemma RepeatedConfidencesCount()
    ensures OverallConfidence(DuResult(Some([Page(Some([ScoredField(0.9), ScoredField(0.9), ScoredField(0.3)]), None)]))) == 0.7
  {
    var ps := [Page(Some([ScoredField(0.9), ScoredField(0.9), ScoredField(0.3)]), None)];
    RepeatedFieldsCollected();
    assert ps[..0] == [];
    assert PageConfidences(ps) == [0.9, 0.9, 0.3];
    RepeatedMean();
  }

  // ---------------------------------------------------------------------
  // The mapping table and the invariant of the record it fills
  // ---------------------------------------------------------------------

  /** Distinct slots never share a `confidence_scores` key: the section
      names start with distinct letters, and within one section the key
      follows the same prefix. */
  lemma ScoreKeyInjective(t1: Target, t2: Target)
    requires ScoreKey(t1) == ScoreKey(t2)
    ensures t1 == t2
  {
    assert ScoreKey(t1)[0] == SectionName(t1.section)[0];
    assert ScoreKey(t2)[0] == SectionName(t2.section)[0];
    var prefix := SectionName(t1.section) + ".";
    assert ScoreKey(t1)[|prefix|..] == t1.key;
    assert ScoreKey(t2)[|prefix|..] == t2.key;
  }

  /** The slot is the target of some entry of the mapping table. */
  predicate Mapped(t: Target) {
    t in FieldMapping.Values
  }

  /** `k` is `"section.key"` for some entry of the mapping table. */
  ghost predicate IsScoreKey(k: string) {
    exists t :: Mapped(t) && ScoreKey(t) == k
  }

  /** What a slot holds: `invoice_data[section][key]` and
      `confidence_scores["section.key"]`, each possibly absent. */
  function Slot(d: InvoiceData, t: Target): (Option<Value>, Option<real>) {
    ( if t.key in SectionOf(d, t.section) then Some(SectionOf(d, t.section)[t.key]) else None,
      if ScoreKey(t) in d.confidenceScores then Some(d.confidenceScores[ScoreKey(t)]) else None )
  }

  /** The record only ever holds mapped slots, and holds a slot's value
      exactly when it holds the slot's confidence. */
  ghost predicate Coherent(d: InvoiceData) {
    && (forall k :: k in d.confidenceScores ==> IsScoreKey(k))
    && (forall s, key :: key in SectionOf(d, s) ==> Mapped(Target(s, key)))
    && (forall t :: Mapped(t) ==> (t.key in SectionOf(d, t.section) <==> ScoreKey(t) in d.confidenceScores))
  }

  /** A field writes its slot's value and confidence together, and no other slot. */
  lemma ApplyFieldSlots(d: InvoiceData, f: DocumentField, t: Target)
    ensures FieldTarget(f) == Some(t) ==> Slot(ApplyField(d, f), t) == (FieldText(f), Some(f.confidence.GetOr(0.0)))
    ensures FieldTarget(f) != Some(t) ==> Slot(ApplyField(d, f), t) == Slot(d, t)
  {
    if FieldTarget(f).Some? && FieldTarget(f) != Some(t) {
      var t' := FieldTarget(f).value;
      if ScoreKey(t') == ScoreKey(t) {
        ScoreKeyInjective(t', t);
      }
    }
  }

  lemma ApplyFieldScoreKeys(d: InvoiceData, f: DocumentField)
    requires forall k :: k in d.confidenceScores ==> IsScoreKey(k)
    ensures forall k :: k in ApplyField(d, f).confidenceScores ==> IsScoreKey(k)
  {
    if FieldTarget(f).Some? {
      var t0 := FieldTarget(f).value;
      assert Mapped(t0) by {
        assert FieldMapping[TypeName(f)] == t0;
      }
      assert IsScoreKey(ScoreKey(t0));
    }
  }

  lemma ApplyFieldSectionKeys(d: InvoiceData, f: DocumentField)
    requires forall s, key :: key in SectionOf(d, s) ==> Mapped(Target(s, key))
    ensures forall s, key :: key in SectionOf(ApplyField(d, f), s) ==> Mapped(Target(s, key))
  {
    if FieldTarget(f).Some? {
      var t0 := FieldTarget(f).value;
      assert t0 in FieldMapping.Values by {
        assert FieldMapping[TypeName(f)] == t0;
      }
    }
  }

  lemma ApplyFieldPairs(d: InvoiceData, f: DocumentField)
    requires forall t :: Mapped(t) ==> (t.key in SectionOf(d, t.section) <==> ScoreKey(t) in d.confidenceScores)
    ensures var r := ApplyField(d, f);
            forall t :: Mapped(t) ==> (t.key in SectionOf(r, t.section) <==> ScoreKey(t) in r.confidenceScores)
  {
    var r := ApplyField(d, f);
    forall t | Mapped(t)
      ensures t.key in SectionOf(r, t.section) <==> ScoreKey(t) in r.confidenceScores
    {
      ApplyFieldSlots(d, f, t);
    }
  }

  lemma ApplyFieldCoherent(d: InvoiceData, f: DocumentField)
    requires Coherent(d)
    ensures Coherent(ApplyField(d, f))
  {
    ApplyFieldScoreKeys(d, f);
    ApplyFieldSectionKeys(d, f);
    ApplyFieldPairs(d, f);
  }

  lemma {:induction false} ApplyFieldsCoherent(d: InvoiceData, fs: seq<DocumentField>)
    requires Coherent(d)
    ensures Coherent(ApplyFields(d, fs))
  {
    if |fs| > 0 {
      ApplyFieldsCoherent(d, fs[..|fs| - 1]);
      ApplyFieldCoherent(ApplyFields(d, fs[..|fs| - 1]), fs[|fs| - 1]);
    }
  }

  /** The field that wins a slot is the last one in order that writes it. */
  lemma {:induction false} LastWriterWins(d: InvoiceData, fs: seq<DocumentField>, t: Target, i: nat)
    requires i < |fs| && FieldTarget(fs[i]) == Some(t)
    requires forall k :: i < k < |fs| ==> FieldTarget(fs[k]) != Some(t)
    ensures Slot(ApplyFields(d, fs), t) == (FieldText(fs[i]), Some(fs[i].confidence.GetOr(0.0)))
  {
    var n := |fs| - 1;
    var before := ApplyFields(d, fs[..n]);
    assert ApplyFields(d, fs) == ApplyField(before, fs[n]);
    ApplyFieldSlots(before, fs[n], t);
    if i < n {
      var pre := fs[..n];
      assert pre[i] == fs[i];
      assert forall k :: i < k < |pre| ==> FieldTarget(pre[k]) != Some(t) by {
        assert forall k :: i < k < |pre| ==> pre[k] == fs[k];
      }
      LastWriterWins(d, pre, t, i);
    }
  }

  /** A slot no field writes keeps what it held before. */
  lemma {:induction false} UnwrittenSlotKept(d: InvoiceData, fs: seq<DocumentField>, t: Target)
    requires forall k :: 0 <= k < |fs| ==> FieldTarget(fs[k]) != Some(t)
    ensures Slot(ApplyFields(d, fs), t) == Slot(d, t)
  {
    if |fs| > 0 {
      var n := |fs| - 1;
      UnwrittenSlotKept(d, fs[..n], t);
      ApplyFieldSlots(ApplyFields(d, fs[..n]), fs[n], t);
    }
  }

  // ---------------------------------------------------------------------
  // From the page loop to one flat run of fields and one flat run of rows
  // ---------------------------------------------------------------------

  /** Every field of every page, in page then field order. */
  function AllFields(ps: seq<Page>): seq<DocumentField> {
    if |ps| == 0 then [] else AllFields(ps[..|ps| - 1]) + FieldsOf(ps[|ps| - 1])
  }

  function TableRows(ts: seq<Table>): seq<Row> {
    if |ts| == 0 then [] else TableRows(ts[..|ts| - 1]) + RowsOf(ts[|ts| - 1])
  }

  /** Every row of every table of every page, in that order. */
  function AllRows(ps: seq<Page>): seq<Row> {
    if |ps| == 0 then [] else AllRows(ps[..|ps| - 1]) + TableRows(TablesOf(ps[|ps| - 1]))
  }

  /** Line items follow the rows: the items of two runs of rows are the
      items of the first followed by those of the second. */
  lemma {:induction false} RowItemsAppend(a: seq<Row>, b: seq<Row>)
    ensures RowItems(a + b) == RowItems(a) + RowItems(b)
    decreases |b|
  {
    if |b| == 0 {
      assert a + b == a;
    } else {
      assert (a + b)[..|a + b| - 1] == a + b[..|b| - 1];
      assert (a + b)[|a + b| - 1] == b[|b| - 1];
      RowItemsAppend(a, b[..|b| - 1]);
    }
  }

  lemma {:induction false} TableItemsAreRowItems(ts: seq<Table>)
    ensures TableItems(ts) == RowItems(TableRows(ts))
  {
    if |ts| > 0 {
      TableItemsAreRowItems(ts[..|ts| - 1]);
      RowItemsAppend(TableRows(ts[..|ts| - 1]), RowsOf(ts[|ts| - 1]));
    }
  }

  lemma {:induction false} ApplyFieldsAppend(d: InvoiceData, a: seq<DocumentField>, b: seq<DocumentField>)
    ensures ApplyFields(d, a + b) == ApplyFields(ApplyFields(d, a), b)
    decreases |b|
  {
    if |b| == 0 {
      assert a + b == a;
    } else {
      assert (a + b)[..|a + b| - 1] == a + b[..|b| - 1];
      assert (a + b)[|a + b| - 1] == b[|b| - 1];
      ApplyFieldsAppend(d, a, b[..|b| - 1]);
    }
  }

  lemma ApplyFieldIgnoresLineItems(d: InvoiceData, f: DocumentField, items: seq<LineItem>)
    ensures ApplyField(d.(lineItems := items), f) == ApplyField(d, f).(lineItems := items)
  {
    if FieldTarget(f).Some? {
      var t := FieldTarget(f).value;
      match t.section
      case Vendor =>
      case InvoiceDetails =>
      case Totals =>
    }
  }

  /** The field loop never looks at the line items it carries along. */
  lemma {:induction false} ApplyFieldsIgnoresLineItems(d: InvoiceData, fs: seq<DocumentField>, items: seq<LineItem>)
    ensures ApplyFields(d.(lineItems := items), fs) == ApplyFields(d, fs).(lineItems := items)
  {
    if |fs| > 0 {
      var n := |fs| - 1;
      ApplyFieldsIgnoresLineItems(d, fs[..n], items);
      ApplyFieldIgnoresLineItems(ApplyFields(d, fs[..n]), fs[n], items);
    }
  }

  /** The line items of all rows so far grow by the data rows of the next
      page's tables. */
  lemma AllRowsItemsStep(ps: seq<Page>)
    requires |ps| > 0
    ensures RowItems(AllRows(ps)) == RowItems(AllRows(ps[..|ps| - 1])) + TableItems(TablesOf(ps[|ps| - 1]))
  {
    var ts := TablesOf(ps[|ps| - 1]);
    TableItemsAreRowItems(ts);
    RowItemsAppend(AllRows(ps[..|ps| - 1]), TableRows(ts));
  }

  /** The fields of all pages so far are followed by the next page's. */
  lemma AllFieldsStep(d: InvoiceData, ps: seq<Page>)
    requires |ps| > 0
    ensures ApplyFields(d, AllFields(ps)) == ApplyFields(ApplyFields(d, AllFields(ps[..|ps| - 1])), FieldsOf(ps[|ps| - 1]))
  {
    ApplyFieldsAppend(d, AllFields(ps[..|ps| - 1]), FieldsOf(ps[|ps| - 1]));
  }

  /** One page applied to a record that already carries line items: its
      fields run as if there were none, and its items are appended. */
  lemma ApplyPageWithItems(e: InvoiceData, items: seq<LineItem>, p: Page)
    ensures ApplyPage(e.(lineItems := items), p)
         == ApplyFields(e, FieldsOf(p)).(lineItems := items + TableItems(TablesOf(p)))
  {
    ApplyFieldsIgnoresLineItems(e, FieldsOf(p), items);
  }

  /** The page loop is the field loop over all fields together with the
      data rows of all tables, appended in order. */
  lemma {:induction false} ApplyPagesFlattens(d: InvoiceData, ps: seq<Page>)
    ensures ApplyPages(d, ps) == ApplyFields(d, AllFields(ps)).(lineItems := d.lineItems + RowItems(AllRows(ps)))
  {
    if |ps| == 0 {
      assert d.lineItems + [] == d.lineItems;
    } else {
      var n := |ps| - 1;
      var p := ps[n];
      var e := ApplyFields(d, AllFields(ps[..n]));
      var items := d.lineItems + RowItems(AllRows(ps[..n]));
      var e' := ApplyFields(e, FieldsOf(p));
      calc {
        ApplyPages(d, ps);
        ApplyPage(ApplyPages(d, ps[..n]), p);
        { ApplyPagesFlattens(d, ps[..n]); }
        ApplyPage(e.(lineItems := items), p);
        { ApplyPageWithItems(e, items, p); }
        e'.(lineItems := items + TableItems(TablesOf(p)));
        { AllRowsItemsStep(ps);
          assert items + TableItems(TablesOf(p)) == d.lineItems + RowItems(AllRows(ps)); }
        e'.(lineItems := d.lineItems + RowItems(AllRows(ps)));
        { AllFieldsStep(d, ps); }
        ApplyFields(d, AllFields(ps)).(lineItems := d.lineItems + RowItems(AllRows(ps)));
      }
    }
  }

  // ---------------------------------------------------------------------
  // The transform as a whole
  // ---------------------------------------------------------------------

  /** Every `confidence_scores` key is `"section.key"` of a table entry,
      every section key is a table slot, and a slot's value is present
      exactly when its confidence is. */
  lemma TransformIsCoherent(du: DuResult, timestamp: string)
    ensures Coherent(TransformDuToInvoiceSchema(du, timestamp))
  {
    var e := EmptyInvoice(timestamp);
    var fs, items := AllFields(PagesOf(du)), RowItems(AllRows(PagesOf(du)));
    ApplyPagesFlattens(e, PagesOf(du));
    ApplyFieldsIgnoresLineItems(e, fs, items);
    assert e.lineItems + items == items;
    EmptyIsCoherent(e.(lineItems := items));
    ApplyFieldsCoherent(e.(lineItems := items), fs);
  }

  /** A record with no section entries and no confidences is coherent. */
  lemma EmptyIsCoherent(d: InvoiceData)
    requires d.vendor == map[] && d.invoiceDetails == map[] && d.totals == map[]
    requires d.confidenceScores == map[]
    ensures Coherent(d)
  {
    forall s: Section
      ensures SectionOf(d, s) == map[]
    {
    }
  }

  lemma TransformLastFieldWins(du: DuResult, timestamp: string, t: Target, i: nat)
    requires i < |AllFields(PagesOf(du))| && FieldTarget(AllFields(PagesOf(du))[i]) == Some(t)
    requires forall k :: i < k < |AllFields(PagesOf(du))| ==> FieldTarget(AllFields(PagesOf(du))[k]) != Some(t)
    ensures var f := AllFields(PagesOf(du))[i];
            Slot(TransformDuToInvoiceSchema(du, timestamp), t) == (FieldText(f), Some(f.confidence.GetOr(0.0)))
  {
    ApplyPagesFlattens(EmptyInvoice(timestamp), PagesOf(du));
    LastWriterWins(EmptyInvoice(timestamp), AllFields(PagesOf(du)), t, i);
  }

  /** A slot that no field writes is absent from the result. */
  lemma TransformUnwrittenSlotAbsent(du: DuResult, timestamp: string, t: Target)
    requires forall k :: 0 <= k < |AllFields(PagesOf(du))| ==> FieldTarget(AllFields(PagesOf(du))[k]) != Some(t)
    ensures Slot(TransformDuToInvoiceSchema(du, timestamp), t) == (None, None)
  {
    ApplyPagesFlattens(EmptyInvoice(timestamp), PagesOf(du));
    UnwrittenSlotKept(EmptyInvoice(timestamp), AllFields(PagesOf(du)), t);
  }

  /** `line_items` is one entry per non-header row over all pages and
      tables, in document order. */
  lemma TransformLineItems(du: DuResult, timestamp: string)
    ensures TransformDuToInvoiceSchema(du, timestamp).lineItems == RowItems(AllRows(PagesOf(du)))
  {
    ApplyPagesFlattens(EmptyInvoice(timestamp), PagesOf(du));
  }

  /** The row-filtering example: one header row and two data rows give
      exactly two line items, each with its cells in order. */
  lemma HeaderRowIsDropped(a: Value, b: Value, c: Value, e: Value)
    ensures var header := Row(Some(Str("header")), Some([Cell(Some(a)), Cell(Some(b))]));
            var row1 := Row(Some(Str("data")), Some([Cell(Some(c)), Cell(None)]));
            var row2 := Row(None, Some([Cell(Some(e))]));
            RowItems([header, row1, row2]) == [LineItem([c, Str("")]), LineItem([e])]
  {
    var header := Row(Some(Str("header")), Some([Cell(Some(a)), Cell(Some(b))]));
    var row1 := Row(Some(Str("data")), Some([Cell(Some(c)), Cell(None)]));
    var row2 := Row(None, Some([Cell(Some(e))]));
    var rows := [header, row1, row2];
    assert [header][..0] == [];
    assert RowItems([header]) == [];
    assert [header, row1][..1] == [header];
    assert ItemOf(row1) == LineItem([c, Str("")]);
    assert RowItems([header, row1]) == [LineItem([c, Str("")])];
    assert rows[..2] == [header, row1];
    assert ItemOf(row2) == LineItem([e]);
  }

  /** The mapping example: an `InvoiceNumber` field with text "INV-100" and
      confidence 0.6 fills `invoice_details.number` and its score. */
  lemma InvoiceNumberExample(timestamp: string)
    ensures var f := DocumentField(Some(FieldType(Some("InvoiceNumber"))), Some(FieldValue(Some(Str("INV-100")), None)), Some(0.6));
            var r := TransformDuToInvoiceSchema(DuResult(Some([Page(Some([f]), None)])), timestamp);
            && r.invoiceDetails == map["number" := Str("INV-100")]
            && r.confidenceScores == map["invoice_details.number" := 0.6]
  {
    var f := DocumentField(Some(FieldType(Some("InvoiceNumber"))), Some(FieldValue(Some(Str("INV-100")), None)), Some(0.6));
    var ps := [Page(Some([f]), None)];
    ApplyPagesFlattens(EmptyInvoice(timestamp), ps);
    assert ps[..0] == [];
    assert AllFields(ps) == [f];
    assert [f][..0] == [];
    assert ApplyFields(EmptyInvoice(timestamp), [f]) == ApplyField(EmptyInvoice(timestamp), f);
    assert TypeName(f) == "InvoiceNumber" && FieldText(f) == Some(Str("INV-100"));
    assert FieldMapping["InvoiceNumber"] == Target(InvoiceDetails, "number");
    assert ScoreKey(Target(InvoiceDetails, "number")) == "invoice_details.number";
  }
}
