# invoice-oci in Dafny

A model of the decision logic inside the three serverless handlers of
invoice-oci, an invoice-extraction pipeline on Oracle Cloud:

- **document-processor** runs OCI Document Understanding on an invoice.
  - It averages the confidence of every extracted field.
  - It maps the recognised field types onto an internal invoice schema (vendor, invoice details, totals, line items).
  - It flags the invoice for a second opinion when the average is strictly below a threshold. The threshold defaults to 0.85.
- **genai-validator** asks a generative model to check that extraction.
  - It reads the JSON reply, either directly or from the first Markdown code fence.
  - It merges the reply section by section over the extraction, keeping an audit block.
  - It grades the outcome as 0.95, 0.85 or 0.70.
- **invoice-processor** sends the document straight to the model. It
  chooses a MIME type from the object name and wraps the document in a
  `data:` URL. It parses the reply with the same fallback, and reports
  the first 200 characters of an unparseable reply.

The model is functional: JSON documents are the `Json.Value` datatype.
`json.loads` is an oracle parameter of type `Json.Parser`. Clocks, the
environment and the cloud calls become parameters or are left out.

Modules:

- `Wrappers`: `Option` and `Result`.
- `Json`: JSON values and `dict.get`.
- `ResponseParsing`: the direct-then-fenced reply parse that both model call sites use, and the regular expression ```` ```(?:json)?\s*([\s\S]*?)``` ````.
- `DocumentProcessor` and `DocumentProcessorProofs`: the scoring, the schema transform and the review flag.
- `GenAiValidator`: the merge, the final confidence and the validation handler.
- `InvoiceProcessor`: the MIME type, the data URL and the extraction reply.

Some behaviours of the code are easy to misread; the model follows the code as written:

- The genai-validator's "no JSON" error carries no excerpt of the reply. Only the invoice-processor's error carries one.
- A table row is dropped only when its `rowType` is exactly `"header"`. A row with no `rowType` is kept.
- The merged record's method is `HYBRID_DU_GENAI`.
- The audit field is `original_du_confidence`, read from `overall_confidence` of the extraction and defaulting to 0.

## Model

| member | source | states |
|---|---|---|
| DocumentProcessor.OverallConfidence | functions/document-processor/func.py:114-129 | The score is 0.0 when no field on any page carries a confidence. Otherwise the score times the number of collected confidences equals their sum, i.e. the score is their arithmetic mean. |
| DocumentProcessor.CalculateOverallConfidence | functions/document-processor/func.py:114-129 | The imperative nested page/field loop, with its running sum and count, computes exactly the functional mean `OverallConfidence`. |
| DocumentProcessor.PageConfidencesMembers | functions/document-processor/func.py:116-124 | A value is collected exactly when some field of some page carries it as its confidence. This is the set view; the count and order are fixed by the rows below. |
| DocumentProcessorProofs.FieldConfidencesOne | functions/document-processor/func.py:123-124 | One field contributes its confidence when it has one, and nothing otherwise. |
| DocumentProcessorProofs.FieldConfidencesAppend | functions/document-processor/func.py:122-124 | The confidences of two runs of fields are those of the first followed by those of the second. Each field is counted once, in order, so repeated values keep their multiplicity. |
| DocumentProcessorProofs.PageConfidencesFlatten | functions/document-processor/func.py:119-124 | The page loop collects exactly the confidences of the flat run of all fields of all pages, in page then field order. |
| DocumentProcessorProofs.RepeatedConfidencesCount | functions/document-processor/func.py:114-129 | Fields scoring 0.9, 0.9 and 0.3 give an overall confidence of 0.7: a repeated value is counted twice. |
| DocumentProcessor.FieldConfidences | functions/document-processor/func.py:121-124 | The confidences of one page's fields number no more than the fields. A value is among them exactly when some field has it (set view; `FieldConfidencesOne` and `FieldConfidencesAppend` fix count and order). |
| DocumentProcessor.Mean | functions/document-processor/func.py:126-129 | An empty list has mean 0.0. Otherwise mean times length equals the sum. |
| DocumentProcessorProofs.MeanBetween | functions/document-processor/func.py:126-129 | The mean of values that all lie in [lo, hi] lies in [lo, hi]. |
| DocumentProcessorProofs.OverallConfidenceBetween | functions/document-processor/func.py:114-129 | When at least one field carries a confidence and every field confidence lies in [lo, hi], so does the overall score. With [0, 1] this gives a score in [0, 1]. |
| DocumentProcessorProofs.ThreeFieldMean | functions/document-processor/func.py:126-129 | Confidences 0.9, 0.8 and 0.7 average to 0.8. |
| DocumentProcessor.ClassifyConfidence | functions/document-processor/func.py:232-245 | Validation is needed exactly when the score is strictly below the threshold. The status is NEEDS_VALIDATION exactly then, and EXTRACTED exactly when threshold <= score. |
| DocumentProcessorProofs.ThresholdIsStrict | functions/document-processor/func.py:232 | For every threshold, a score equal to it is accepted and any score below it is flagged. |
| DocumentProcessorProofs.FlagIsDownwardClosed | functions/document-processor/func.py:232-245 | Lowering a score never clears the flag, and a score at or above an accepted one is accepted with status EXTRACTED. |
| DocumentProcessorProofs.DefaultThresholdBoundary | functions/document-processor/func.py:18 | With the default threshold 0.85, a score of 0.85 is EXTRACTED and 0.84 is NEEDS_VALIDATION. |
| DocumentProcessor.ProcessExtraction | functions/document-processor/func.py:223-245 | The reported score is the overall confidence. The invoice data is exactly the transform's output with that score added as `overall_confidence`. The review flag holds iff the score is below the threshold, and the status follows the flag. The raw result and the invoice id are passed through. |
| DocumentProcessor.FieldText | functions/document-processor/func.py:170-176 | A field's value is its `text` when that key is present, else its `value`. A field with no value object has none. |
| DocumentProcessor.ApplyField | functions/document-processor/func.py:164-182 | A field without text or value, or with an unmapped type, changes nothing. A mapped field writes its value into exactly its target slot and its confidence (default 0) under `"section.key"`, leaving the other sections and the line items alone. |
| DocumentProcessorProofs.ScoreKeyInjective | functions/document-processor/func.py:148-160 | Distinct slots of the mapping table have distinct `"section.key"` score names, so no two slots share a confidence entry. |
| DocumentProcessorProofs.ApplyFieldSlots | functions/document-processor/func.py:178-182 | A field sets the value and confidence of its own slot together and leaves every other slot exactly as it was. |
| DocumentProcessorProofs.ApplyFieldsCoherent | functions/document-processor/func.py:164-182 | The field loop preserves coherence. Coherence means every confidence key names a table slot, every section key is a table slot, and a slot holds a value exactly when it holds a confidence. |
| DocumentProcessorProofs.LastWriterWins | functions/document-processor/func.py:164-182 | When several fields map to one slot, the slot ends up with the value and confidence of the last such field. |
| DocumentProcessorProofs.UnwrittenSlotKept | functions/document-processor/func.py:164-182 | A slot that no field maps to keeps whatever it held before the loop. |
| DocumentProcessor.RowItems | functions/document-processor/func.py:187-195 | There is at most one line item per row. An item is present exactly when it is built from some data row, i.e. one whose `rowType` is not "header". |
| DocumentProcessor.ItemOf | functions/document-processor/func.py:189-194 | A line item has one cell per cell of the row, each the cell's `text` or "". |
| DocumentProcessorProofs.RowItemsAppend | functions/document-processor/func.py:186-195 | The items of two runs of rows are the items of the first followed by those of the second. |
| DocumentProcessorProofs.ApplyPagesFlattens | functions/document-processor/func.py:162-195 | The page loop equals the field loop over all fields of all pages, with the items of all data rows of all tables appended in order. |
| DocumentProcessorProofs.TransformIsCoherent | functions/document-processor/func.py:132-197 | The transformed invoice is coherent: scores and section entries exist only for table slots, and always together. |
| DocumentProcessorProofs.TransformLastFieldWins | functions/document-processor/func.py:162-182 | Across all pages, the last field that maps to a slot decides that slot's value and confidence. |
| DocumentProcessorProofs.TransformUnwrittenSlotAbsent | functions/document-processor/func.py:139-182 | A slot that no field maps to is absent from the transformed invoice, both as a value and as a confidence. |
| DocumentProcessorProofs.TransformLineItems | functions/document-processor/func.py:184-195 | The line items are the items of every data row of every table of every page, in order. |
| DocumentProcessorProofs.HeaderRowIsDropped | functions/document-processor/func.py:188 | A header row, a "data" row and an untyped row give two line items: the header is dropped, the untyped row is kept, and a cell without text becomes "". |
| DocumentProcessorProofs.InvoiceNumberExample | functions/document-processor/func.py:148-182 | A single InvoiceNumber field with text INV-100 and confidence 0.6 gives `invoice_details.number` = INV-100 and a score of 0.6 under `invoice_details.number`. |
| DocumentProcessor.TransformDuToInvoiceSchema | functions/document-processor/func.py:138-146 | The method is OCI_DOCUMENT_UNDERSTANDING, the timestamp is the given one, no overall score is set yet, and a result with no pages gives the empty schema. |
| ResponseParsing.FindFence | functions/genai-validator/func.py:155 | Returns the leftmost three-backtick marker at or after a position, or none when no marker follows. |
| ResponseParsing.FencedBlock | functions/genai-validator/func.py:155-157 | A match exists exactly when the reply has two markers at least three characters apart. The group runs from the content start after the first marker (past an optional "json" tag and whitespace) up to the next marker after it, with no marker in between. |
| ResponseParsing.FencedExample | functions/genai-validator/func.py:155-157 | For the reply "Here you go:" followed by a fence tagged json around `{"a":1}`, the group is `{"a":1}` plus its trailing newline. |
| ResponseParsing.BacktrackingFindsSameClose | functions/genai-validator/func.py:155 | Giving up any part of the optional tag or the whitespace leads the lazy group to the same closing marker. So the greedy choice decides the match. |
| ResponseParsing.LaterStartsFailToo | functions/genai-validator/func.py:155 | When the first marker has no closing marker, no later marker opens a match either. So only the first marker is tried. |
| ResponseParsing.ParseResponse | functions/invoice-processor/func.py:181-191 | A reply that parses directly is used as is. Otherwise the fenced block is parsed, and its decode error propagates. With no block, the call site's error is raised. |
| GenAiValidator.ParseValidation | functions/genai-validator/func.py:149-159 | A reply that parses directly is the result. Otherwise a fenced block that parses gives its value, and one that does not gives a decode error. With no fenced block the error is "Could not parse GenAI response as JSON". |
| GenAiValidator.MergeResults | functions/genai-validator/func.py:164-185 | Each section comes whole from the validator when it has the key, else from the extraction, else is {} ([] for line items). The method is HYBRID_DU_GENAI and `genai_used` is true. Corrections default to [], the tier to "MEDIUM" and the original score to 0. |
| GenAiValidator.ReplacedSectionIgnoresExtraction | functions/genai-validator/func.py:173-176 | Once the validator supplies a section, the extraction's copy of it cannot influence the merged record. |
| GenAiValidator.MergeReadsFiveKeys | functions/genai-validator/func.py:164-185 | Two extractions that agree on the four sections and `overall_confidence` merge to the same record. |
| GenAiValidator.MergeTotalsExample | functions/genai-validator/func.py:176 | Totals missing from the reply are kept from the extraction, and totals in the reply replace them whole. |
| GenAiValidator.FinalConfidence | functions/genai-validator/func.py:226-234 | The grade is one of 0.95, 0.85 and 0.70. It is 0.95 exactly for "HIGH" with at most two corrections, and 0.70 exactly for a tier other than "MEDIUM" with more than five. |
| GenAiValidator.FinalConfidenceIsTierTable | functions/genai-validator/func.py:229-234 | The ordered rules agree on every input with a tier-by-tier table. |
| GenAiValidator.FinalConfidenceMonotone | functions/genai-validator/func.py:229-234 | For a fixed tier, more corrections never raise the grade. |
| GenAiValidator.FinalConfidenceExamples | functions/genai-validator/func.py:229-234 | HIGH/2 gives 0.95, HIGH/4 gives 0.85, LOW/6 gives 0.70 and MEDIUM/0 gives 0.85. |
| GenAiValidator.ValidateExtraction | functions/genai-validator/func.py:211-244 | A non-object extraction fails, and a reply that cannot be parsed fails with the parse error. After a successful parse, the run fails as not an object exactly when the reply or `invoice_data` is not an object. It fails for `len()` exactly when `corrections_made` has no length, and it succeeds otherwise. On success the record is the merge of the reply over `invoice_data` and the count is the length of `corrections_made`. The grade is the final confidence of the tier and that count, and the status is VALIDATED. |
| InvoiceProcessor.LastSegment | functions/invoice-processor/func.py:59 | `split('.')[-1]` is a suffix of the name with no dot, preceded by a dot whenever it is shorter than the name. |
| InvoiceProcessor.ExtensionOfLowerName | functions/invoice-processor/func.py:58-59 | When the lower-cased name ends in "." plus a dot-free extension, the lower-cased last segment is that extension. |
| InvoiceProcessor.ExtensionsExclusive | functions/invoice-processor/func.py:56-58 | No name ends in two of .pdf, .png, .jpg and .jpeg, so the branch order does not matter. |
| InvoiceProcessor.ImageTypeJpg | functions/invoice-processor/func.py:59-61 | A name ending in .jpg in any case gets image/jpeg. |
| InvoiceProcessor.MimeType | functions/invoice-processor/func.py:56-63 | Names ending in .pdf get application/pdf, .png image/png, .jpg and .jpeg image/jpeg, all case-insensitively. Every other name gets application/octet-stream. |
| InvoiceProcessor.MimeTypeIgnoresCase | functions/invoice-processor/func.py:56-63 | Names that agree after lower-casing get the same type, and the type is always one of the four. |
| InvoiceProcessor.DataUrlRoundTrip | functions/invoice-processor/func.py:154 | For a MIME type without ';', the `data:` URL reads back as exactly that type and that payload. |
| InvoiceProcessor.DocumentUrl | functions/invoice-processor/func.py:154 | The URL sent for a stored object reads back as the object's MIME type and the payload. |
| InvoiceProcessor.Excerpt | functions/invoice-processor/func.py:191 | `response_text[:200]` is the first min(200, length) characters. |
| InvoiceProcessor.ParseExtraction | functions/invoice-processor/func.py:181-191 | A reply that parses directly is the result. Otherwise a fenced block that parses gives its value, and one that does not gives a decode error. With no block the error is NoJsonFound with "Could not parse response as JSON: " followed by exactly the first min(200, length) characters of the reply. |
| InvoiceProcessor.ExampleReplyExtracts | functions/invoice-processor/func.py:181-189 | For the worked fenced reply, a parser that rejects the whole text but decodes the block yields the block's value. |
| InvoiceProcessor.ExtractInvoice | functions/invoice-processor/func.py:218-232 | The handler succeeds exactly when the reply parses to an object whose `metadata`, if present, is an object. Otherwise the `.get` calls of the log line at 224 raise. A parse failure reports the parse error, and a parsed non-object or non-object `metadata` reports not-an-object. On success the status is EXTRACTED with the parsed data, the id, the timestamp and the model id. |

## Left out

- The OCI SDK calls are parameters or are absent: Document Understanding job creation and polling, Object Storage reads, and the generative-model chat call. They are I/O.
- The base64 encoding of the document is absent. The payload is an opaque string.
- `json.loads` and `json.dumps` are the `Json.Parser` oracle. The model does not parse or print JSON text.
- `datetime.utcnow()` is a timestamp parameter.
- The environment variables are parameters. The threshold is one; the default 0.85 is `DefaultConfidenceThreshold`.
- Logging, the `fdk` response objects, HTTP status codes and the outer `try`/`except` envelopes are not modelled.
- The error handlers read `body` even when the first `json.loads` of the request failed. That local is then unbound, so the handler raises instead of answering: functions/genai-validator/func.py:259 and functions/invoice-processor/func.py:248. The request decoding is outside the model, so this path is not modelled.
- The validator's prompt text is not modelled.
- The genai-validator's fixed `application/pdf` data URL (functions/genai-validator/func.py:123) is not modelled. It is the same shape as `InvoiceProcessor.DataUrl` with a constant type.
- Confidences are exact reals. Floating-point rounding of the sum and the division is not modelled.
- JSON integers and floats are both `Num`, so `0` and `0.0` are the same value.
- DocumentProcessor.OverallConfidence: a `confidence` that is not a number would make Python's `sum` raise. It is modelled only as present or absent.
- DocumentProcessor.TypeName: a `fieldType.name` that is not a string is not modelled.
- The Document Understanding result is assumed to follow the service's schema. A `null` or wrongly typed `pages`, `documentFields`, `fieldType`, `fieldValue`, `tables`, `rows` or `cells` makes Python raise (functions/document-processor/func.py:120-122, 166-171, 186-192). The typed records cannot express such input, so this failure is not modelled.
- InvoiceProcessor.Lower: lower-cases ASCII letters only. Python's `str.lower()` also maps letters of other scripts, and can change a string's length. The only non-ASCII characters whose lower case contains an ASCII letter are the Kelvin sign (to k) and the dotted capital I (to i and a combining dot). Neither k nor i occurs in the four extensions, so the extension tests are unaffected. The exact image subtype for a non-ASCII last segment is not modelled.
- InvoiceProcessor.ParseExtraction: a decode error inside a found fenced block is `DecodeError`, without Python's message text.
