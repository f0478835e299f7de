/** The reconciliation rules of the genai-validator handler: how the
    validator's reply replaces sections of the earlier extraction, the
    audit block recorded alongside, and the three-tier final confidence. */
module GenAiValidator {
  import opened Wrappers
  import opened Json
  import opened ResponseParsing

  /** The message raised when the reply holds neither JSON nor a fenced block. */
  const NoJsonMessage: string := "Could not parse GenAI response as JSON"

  /** `validate_with_genai` after the chat call: the reply text parsed
      directly, else through its fenced block. */
  function ParseValidation(responseText: string, parse: Parser): (r: Result<Value, ParseError>)
    ensures parse(responseText).Some? ==> r == Success(parse(responseText).value)
    ensures parse(responseText).None? && FencedBlock(responseText).Some? ==>
              r == (match parse(FencedBlock(responseText).value)
                    case Some(v) => Success(v)
                    case None => Failure(DecodeError))
    ensures parse(responseText).None? && FencedBlock(responseText).None? ==> r == Failure(NoJsonFound(NoJsonMessage))
  {
    ParseResponse(responseText, parse, NoJsonMessage)
  }

  // ---------------------------------------------------------------------
  // merge_results
  // ---------------------------------------------------------------------

  /** The four sections the merge takes whole from one side or the other. */
  datatype MergeSection = VendorSection | InvoiceDetailsSection | LineItemsSection | TotalsSection

  function SectionKey(s: MergeSection): string {
    match s
    case VendorSection => "vendor"
    case InvoiceDetailsSection => "invoice_details"
    case LineItemsSection => "line_items"
    case TotalsSection => "totals"
  }

  /** What a section is when neither side has it: `[]` for the line items, `{}` otherwise. */
  function SectionDefault(s: MergeSection): Value {
    if s == LineItemsSection then Arr([]) else EmptyObject
  }

  /** The audit block: `validation`. */
  datatype Validation = Validation(
    genaiUsed: bool,
    correctionsMade: Value,
    genaiConfidence: Value,
    originalDuConfidence: Value)

  /** The merged record; the timestamp is a parameter. */
  datatype MergedRecord = MergedRecord(
    extractionTimestamp: string,
    extractionMethod: string,
    vendor: Value,
    invoiceDetails: Value,
    lineItems: Value,
    totals: Value,
    validation: Validation)

  function SectionOf(m: MergedRecord, s: MergeSection): Value {
    match s
    case VendorSection => m.vendor
    case InvoiceDetailsSection => m.invoiceDetails
    case LineItemsSection => m.lineItems
    case TotalsSection => m.totals
  }

  /** `genai_validation.get(key, du_extraction.get(key, default))`. */
  function MergedSection(du: map<string, Value>, gv: map<string, Value>, s: MergeSection): Value {
    Get(gv, SectionKey(s), Get(du, SectionKey(s), SectionDefault(s)))
  }

  /** `merge_results`: each section comes whole from the validator when it
      has the key, else from the extraction, else is empty; the audit block
      copies the validator's corrections and tier and the extraction's
      original score. */
  function MergeResults(du: map<string, Value>, gv: map<string, Value>, timestamp: string): (m: MergedRecord)
    ensures forall s :: SectionKey(s) in gv ==> SectionOf(m, s) == gv[SectionKey(s)]
    ensures forall s :: SectionKey(s) !in gv && SectionKey(s) in du ==> SectionOf(m, s) == du[SectionKey(s)]
    ensures forall s :: SectionKey(s) !in gv && SectionKey(s) !in du ==> SectionOf(m, s) == SectionDefault(s)
    ensures m.extractionMethod == "HYBRID_DU_GENAI" && m.extractionTimestamp == timestamp
    ensures m.validation.genaiUsed
    ensures "corrections_made" in gv ==> m.validation.correctionsMade == gv["corrections_made"]
    ensures "corrections_made" !in gv ==> m.validation.correctionsMade == Arr([])
    ensures "confidence" in gv ==> m.validation.genaiConfidence == gv["confidence"]
    ensures "confidence" !in gv ==> m.validation.genaiConfidence == Str("MEDIUM")
    ensures "overall_confidence" in du ==> m.validation.originalDuConfidence == du["overall_confidence"]
    ensures "overall_confidence" !in du ==> m.validation.originalDuConfidence == Num(0.0)
  {
    MergedRecord(
      timestamp,
      "HYBRID_DU_GENAI",
      MergedSection(du, gv, VendorSection),
      MergedSection(du, gv, InvoiceDetailsSection),
      MergedSection(du, gv, LineItemsSection),
      MergedSection(du, gv, TotalsSection),
      Validation(
        true,
        Get(gv, "corrections_made", Arr([])),
        Get(gv, "confidence", Str("MEDIUM")),
        Get(du, "overall_confidence", Num(0.0))))
  }

  /** Whole-section replacement: once the validator supplies a section,
      nothing in the extraction's copy of it can reach the merged record. */
  lemma ReplacedSectionIgnoresExtraction(du1: map<string, Value>, du2: map<string, Value>, gv: map<string, Value>, s: MergeSection, timestamp: string)
    requires SectionKey(s) in gv
    ensures SectionOf(MergeResults(du1, gv, timestamp), s) == SectionOf(MergeResults(du2, gv, timestamp), s)
  {
  }

  /** The merge reads only the four sections and `overall_confidence` of
      the extraction: two extractions that agree there merge alike. */
  lemma MergeReadsFiveKeys(du1: map<string, Value>, du2: map<string, Value>, gv: map<string, Value>, timestamp: string)
    requires forall s :: (SectionKey(s) in du1 <==> SectionKey(s) in du2)
    requires forall s :: SectionKey(s) in du1 ==> du1[SectionKey(s)] == du2[SectionKey(s)]
    requires ("overall_confidence" in du1 <==> "overall_confidence" in du2)
    requires "overall_confidence" in du1 ==> du1["overall_confidence"] == du2["overall_confidence"]
    ensures MergeResults(du1, gv, timestamp) == MergeResults(du2, gv, timestamp)
  {
    assert MergedSection(du1, gv, VendorSection) == MergedSection(du2, gv, VendorSection);
    assert MergedSection(du1, gv, InvoiceDetailsSection) == MergedSection(du2, gv, InvoiceDetailsSection);
    assert MergedSection(du1, gv, LineItemsSection) == MergedSection(du2, gv, LineItemsSection);
    assert MergedSection(du1, gv, TotalsSection) == MergedSection(du2, gv, TotalsSection);
  }

  /** The merge example: totals the validator omits are kept from the
      extraction; totals it supplies replace them in full. */
  lemma MergeTotalsExample(timestamp: string)
    ensures var du := map["totals" := Obj(map["total" := Num(100.0), "tax" := Num(19.0)])];
            && MergeResults(du, map[], timestamp).totals == Obj(map["total" := Num(100.0), "tax" := Num(19.0)])
            && MergeResults(du, map["totals" := Obj(map["total" := Num(120.0)])], timestamp).totals == Obj(map["total" := Num(120.0)])
  {
    var du := map["totals" := Obj(map["total" := Num(100.0), "tax" := Num(19.0)])];
    assert SectionKey(TotalsSection) == "totals";
    assert SectionOf(MergeResults(du, map[], timestamp), TotalsSection) == du["totals"];
  }

  // ---------------------------------------------------------------------
  // The final confidence
  // ---------------------------------------------------------------------

  /** Step 4 of `handler`: an ordered lookup whose first rule is a
      conjunction and whose second is a disjunction. */
  function FinalConfidence(genaiConfidence: Value, correctionsCount: nat): (r: real)
    ensures r == 0.95 || r == 0.85 || r == 0.70
    ensures r == 0.95 <==> genaiConfidence == Str("HIGH") && correctionsCount <= 2
    ensures r == 0.70 <==> genaiConfidence != Str("MEDIUM") && correctionsCount > 5
  {
    if genaiConfidence == Str("HIGH") && correctionsCount <= 2 then 0.95
    else if genaiConfidence == Str("MEDIUM") || correctionsCount <= 5 then 0.85
    else 0.70
  }

  /** The same policy read tier by tier, each tier a step function of the
      number of corrections. */
  function TierTable(genaiConfidence: Value, correctionsCount: nat): real {
    if genaiConfidence == Str("HIGH") then
      (if correctionsCount <= 2 then 0.95 else if correctionsCount <= 5 then 0.85 else 0.70)
    else if genaiConfidence == Str("MEDIUM") then 0.85
    else (if correctionsCount <= 5 then 0.85 else 0.70)
  }

  /** The ordered rules and the tier-by-tier table agree on every input:
      in particular "HIGH" with three to five corrections is in the middle
      tier, and "MEDIUM" is 0.85 whatever the count. */
  lemma FinalConfidenceIsTierTable(genaiConfidence: Value, correctionsCount: nat)
    ensures FinalConfidence(genaiConfidence, correctionsCount) == TierTable(genaiConfidence, correctionsCount)
  {
  }

  /** For a fixed tier, more corrections never raise the final confidence. */
  lemma FinalConfidenceMonotone(genaiConfidence: Value, fewer: nat, more: nat)
    requires fewer <= more
    ensures FinalConfidence(genaiConfidence, more) <= FinalConfidence(genaiConfidence, fewer)
  {
  }

  /** The four worked examples of the policy. */
  lemma FinalConfidenceExamples()
    ensures FinalConfidence(Str("HIGH"), 2) == 0.95
    ensures FinalConfidence(Str("HIGH"), 4) == 0.85
    ensures FinalConfidence(Str("LOW"), 6) == 0.70
    ensures FinalConfidence(Str("MEDIUM"), 0) == 0.85
  {
  }

  // ---------------------------------------------------------------------
  // The handler, once the document has been fetched and the model called
  // ---------------------------------------------------------------------

  /** Why a validation run fails. */
  datatype ValidatorError =
    | ReplyNotParsed(cause: ParseError)
    | NotAnObject               // `.get` on something that is not a dict
    | CorrectionsHaveNoLength   // `len()` on a number, boolean or null

  /** The success payload of the handler. */
  datatype ValidationOutcome = ValidationOutcome(
    invoiceId: Value,
    status: string,
    finalConfidence: real,
    genaiCorrections: nat,
    invoiceData: MergedRecord)

  /** Steps 2 to 4 of `handler`: parse the reply, merge it over the
      extraction's `invoice_data`, and grade the result. The reply must be a
      dict and so must `invoice_data`, or the merge's `.get` raises. */
  function ValidateExtraction(invoiceId: Value, duExtraction: Value, responseText: string, parse: Parser, timestamp: string)
    : (r: Result<ValidationOutcome, ValidatorError>)
    ensures !duExtraction.Obj? ==> r == Failure(NotAnObject)
    ensures duExtraction.Obj? && ParseValidation(responseText, parse).Failure? ==>
              r == Failure(ReplyNotParsed(ParseValidation(responseText, parse).error))
    ensures r.Success? ==>
              && duExtraction.Obj?
              && ParseValidation(responseText, parse).Success?
              && ParseValidation(responseText, parse).value.Obj?
              && Get(duExtraction.fields, "invoice_data", EmptyObject).Obj?
              && var gv := ParseValidation(responseText, parse).value.fields;
                 && r.value.invoiceData == MergeResults(Get(duExtraction.fields, "invoice_data", EmptyObject).fields, gv, timestamp)
                 && Len(Get(gv, "corrections_made", Arr([]))) == Some(r.value.genaiCorrections)
                 && r.value.finalConfidence == FinalConfidence(Get(gv, "confidence", Str("MEDIUM")), r.value.genaiCorrections)
                 && r.value.status == "VALIDATED"
                 && r.value.invoiceId == invoiceId
    ensures duExtraction.Obj? && ParseValidation(responseText, parse).Success? ==>
              var reply := ParseValidation(responseText, parse).value;
              var invoiceData := Get(duExtraction.fields, "invoice_data", EmptyObject);
              && (!reply.Obj? || !invoiceData.Obj? <==> r == Failure(NotAnObject))
              && (reply.Obj? && invoiceData.Obj? ==>
                    (Len(Get(reply.fields, "corrections_made", Arr([]))).None? <==> r == Failure(CorrectionsHaveNoLength)))
              && (reply.Obj? && invoiceData.Obj? && Len(Get(reply.fields, "corrections_made", Arr([]))).Some? ==> r.Success?)
    ensures r.Success? ==> r.value.finalConfidence == FinalConfidence(r.value.invoiceData.validation.genaiConfidence, r.value.genaiCorrections)
    ensures r.Success? ==> Len(r.value.invoiceData.validation.correctionsMade) == Some(r.value.genaiCorrections)
  {
    if !duExtraction.Obj? then Failure(NotAnObject)
    else
      var invoiceData := Get(duExtraction.fields, "invoice_data", EmptyObject);
      match ParseValidation(responseText, parse)
      case Failure(e) => Failure(ReplyNotParsed(e))
      case Success(reply) =>
        if !reply.Obj? || !invoiceData.Obj? then Failure(NotAnObject)
        else
          var gv := reply.fields;
          var merged := MergeResults(invoiceData.fields, gv, timestamp);
          match Len(Get(gv, "corrections_made", Arr([])))
          case None => Failure(CorrectionsHaveNoLength)
          case Some(count) =>
            var tier := Get(gv, "confidence", Str("MEDIUM"));
            Success(ValidationOutcome(invoiceId, "VALIDATED", FinalConfidence(tier, count), count, merged))
  }
}
