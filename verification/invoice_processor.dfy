/** The string rules of the single-pass invoice-processor handler: the
    MIME type guessed from the object name, the data URL that carries the
    document to the model, and the parse of the model's reply. */
module InvoiceProcessor {
  import opened Wrappers
  import opened Json
  import opened ResponseParsing

  // ---------------------------------------------------------------------
  // Object names
  // ---------------------------------------------------------------------

  function LowerChar(c: char): char {
    if 'A' <= c <= 'Z' then (c as int + 32) as char else c
  }

  /** `str.lower()` on the ASCII letters. */
  function Lower(s: string): (r: string)
    ensures |r| == |s|
    ensures forall k :: 0 <= k < |s| ==> r[k] == LowerChar(s[k])
  {
    seq(|s|, k requires 0 <= k < |s| => LowerChar(s[k]))
  }

  /** `str.endswith(suffix)`. */
  predicate EndsWith(s: string, suffix: string) {
    |suffix| <= |s| && s[|s| - |suffix|..] == suffix
  }

  /** `s.split('.')[-1]`: the longest suffix without a dot, which is the
      whole name when it has no dot at all. */
  function LastSegment(s: string): (seg: string)
    ensures |seg| <= |s| && seg == s[|s| - |seg|..]
    ensures forall k :: 0 <= k < |seg| ==> seg[k] != '.'
    ensures |seg| < |s| ==> s[|s| - |seg| - 1] == '.'
  {
    if |s| == 0 then ""
    else if s[|s| - 1] == '.' then ""
    else
      var n := |s|;
      var init := LastSegment(s[..n - 1]);
      InitSuffix(s, |init|);
      init + [s[n - 1]]
  }

  /** A suffix of `s` without its last character, extended by that
      character, is a suffix of `s`; positions inside it are unchanged. */
  lemma InitSuffix(s: string, m: nat)
    requires m < |s|
    ensures s[..|s| - 1][|s| - 1 - m..] == s[|s| - 1 - m..|s| - 1]
    ensures s[|s| - 1 - m..] == s[|s| - 1 - m..|s| - 1] + [s[|s| - 1]]
    ensures forall k :: 0 <= k < |s| - 1 ==> s[..|s| - 1][k] == s[k]
  {
  }

  /** A suffix of length `m` that has no dot and follows a dot is the
      last segment. */
  lemma LastSegmentAfterDot(s: string, m: nat)
    requires m < |s| && s[|s| - m - 1] == '.'
    requires forall k :: |s| - m <= k < |s| ==> s[k] != '.'
    ensures LastSegment(s) == s[|s| - m..]
  {
  }

  /** The lower-cased extension taken from the split name, for a name whose
      lower-cased form ends in `"." + ext`. */
  lemma ExtensionOfLowerName(name: string, ext: string)
    requires forall k :: 0 <= k < |ext| ==> ext[k] != '.'
    requires EndsWith(Lower(name), "." + ext)
    ensures Lower(LastSegment(name)) == ext
  {
    var l, n, m := Lower(name), |name|, |ext|;
    assert l[n - m - 1] == '.' by {
      assert l[n - m - 1..][0] == ("." + ext)[0];
    }
    assert l[n - m..] == ext by {
      assert l[n - m - 1..][1..] == ("." + ext)[1..];
    }
    forall k | n - m <= k < n
      ensures name[k] != '.'
    {
      assert l[k] == ext[k - (n - m)];
    }
    LastSegmentAfterDot(name, m);
    assert Lower(name[n - m..]) == l[n - m..];
  }

  /** No name ends in two of the four extensions. */
  lemma ExtensionsExclusive(s: string)
    ensures EndsWith(s, ".pdf") ==> !EndsWith(s, ".png") && !EndsWith(s, ".jpg") && !EndsWith(s, ".jpeg")
    ensures EndsWith(s, ".png") ==> !EndsWith(s, ".jpg") && !EndsWith(s, ".jpeg")
    ensures EndsWith(s, ".jpg") ==> !EndsWith(s, ".jpeg")
  {
    var n := |s|;
    if EndsWith(s, ".pdf") { assert s[n - 1] == 'f'; }
    if EndsWith(s, ".png") { assert s[n - 2] == 'n'; }
    if EndsWith(s, ".jpg") { assert s[n - 2] == 'p'; }
    if EndsWith(s, ".jpeg") { assert s[n - 1] == 'g' && s[n - 2] == 'e'; }
  }

  /** The `image/...` branch: `"image/"` plus the lower-cased last
      segment of the name, with `jpg` spelled `jpeg`. */
  function ImageType(objectName: string): string {
    var m := "image/" + Lower(LastSegment(objectName));
    if m == "image/jpg" then "image/jpeg" else m
  }

  /** The image type for a name whose lower-cased form ends in a known
      extension. */
  lemma ImageTypeOf(objectName: string, ext: string)
    requires forall k :: 0 <= k < |ext| ==> ext[k] != '.'
    requires EndsWith(Lower(objectName), "." + ext)
    ensures ImageType(objectName) == if ext == "jpg" then "image/jpeg" else "image/" + ext
  {
    ExtensionOfLowerName(objectName, ext);
    ImagePrefixCancel(ext);
  }

  lemma ImagePrefixCancel(x: string)
    ensures "image/" + x == "image/jpg" <==> x == "jpg"
  {
    if "image/" + x == "image/jpg" {
      assert x == ("image/" + x)[6..];
    }
  }

  lemma ImageTypePng(objectName: string)
    requires EndsWith(Lower(objectName), ".png")
    ensures ImageType(objectName) == "image/png"
  {
    assert "." + "png" == ".png";
    ImageTypeOf(objectName, "png");
    assert "png" != "jpg" by {
      assert "png"[0] != "jpg"[0];
    }
    assert "image/" + "png" == "image/png";
  }

  lemma ImageTypeJpg(objectName: string)
    requires EndsWith(Lower(objectName), ".jpg")
    ensures ImageType(objectName) == "image/jpeg"
  {
    assert "." + "jpg" == ".jpg";
    ImageTypeOf(objectName, "jpg");
  }

  lemma ImageTypeJpeg(objectName: string)
    requires EndsWith(Lower(objectName), ".jpeg")
    ensures ImageType(objectName) == "image/jpeg"
  {
    assert "." + "jpeg" == ".jpeg";
    ImageTypeOf(objectName, "jpeg");
    assert |"jpeg"| != |"jpg"|;
  }

  /** The MIME type of `get_document_base64`, chosen from the object name. */
  function MimeType(objectName: string): (mime: string)
    ensures EndsWith(Lower(objectName), ".pdf") ==> mime == "application/pdf"
    ensures EndsWith(Lower(objectName), ".png") ==> mime == "image/png"
    ensures EndsWith(Lower(objectName), ".jpg") || EndsWith(Lower(objectName), ".jpeg") ==> mime == "image/jpeg"
    ensures !EndsWith(Lower(objectName), ".pdf") && !EndsWith(Lower(objectName), ".png")
            && !EndsWith(Lower(objectName), ".jpg") && !EndsWith(Lower(objectName), ".jpeg")
            ==> mime == "application/octet-stream"
  {
    var lower := Lower(objectName);
    ExtensionsExclusive(lower);
    if EndsWith(lower, ".pdf") then "application/pdf"
    else if EndsWith(lower, ".png") || EndsWith(lower, ".jpg") || EndsWith(lower, ".jpeg") then
      if EndsWith(lower, ".png") then ImageTypePng(objectName); ImageType(objectName)
      else if EndsWith(lower, ".jpg") then ImageTypeJpg(objectName); ImageType(objectName)
      else ImageTypeJpeg(objectName); ImageType(objectName)
    else "application/octet-stream"
  }

  /** The choice is case-insensitive: names with the same lower-cased form
      get the same type, and it is always one of four. */
  lemma MimeTypeIgnoresCase(a: string, b: string)
    requires Lower(a) == Lower(b)
    ensures MimeType(a) == MimeType(b)
    ensures MimeType(a) in {"application/pdf", "image/png", "image/jpeg", "application/octet-stream"}
  {
  }

  // ---------------------------------------------------------------------
  // The data URL
  // ---------------------------------------------------------------------

  /** `f"data:{mime_type};base64,{document_base64}"`; the base64 text is
      an opaque parameter. */
  function DataUrl(mime: string, payload: string): string {
    "data:" + mime + ";base64," + payload
  }

  /** The first position of `c` in `s`. */
  function IndexOf(s: string, c: char): (r: Option<nat>)
    ensures r.Some? ==> r.value < |s| && s[r.value] == c && c !in s[..r.value]
    ensures r.None? ==> c !in s
  {
    if |s| == 0 then None
    else if s[0] == c then Some(0)
    else
      match IndexOf(s[1..], c)
      case None => None
      case Some(k) =>
        assert s[..k + 1] == [s[0]] + s[1..][..k];
        Some(k + 1)
  }

  /** Reads a data URL back into its MIME type and payload. */
  function SplitDataUrl(url: string): Option<(string, string)> {
    if |url| < 5 || url[..5] != "data:" then None
    else
      var rest := url[5..];
      match IndexOf(rest, ';')
      case None => None
      case Some(k) =>
        if k + 8 <= |rest| && rest[k..k + 8] == ";base64," then Some((rest[..k], rest[k + 8..])) else None
  }

  /** The URL keeps the MIME type and the payload apart, so both can be
      read back whenever the type has no `;`. */
  lemma DataUrlRoundTrip(mime: string, payload: string)
    requires ';' !in mime
    ensures SplitDataUrl(DataUrl(mime, payload)) == Some((mime, payload))
  {
    var url := DataUrl(mime, payload);
    var rest := url[5..];
    assert rest == mime + ";base64," + payload;
    assert rest[|mime|] == ';';
    assert rest[..|mime|] == mime;
    assert IndexOf(rest, ';') == Some(|mime|);
    assert rest[|mime|..|mime| + 8] == ";base64,";
    assert rest[|mime| + 8..] == payload;
  }

  /** The URL sent to the model for a stored document. */
  function DocumentUrl(objectName: string, payload: string): (url: string)
    ensures SplitDataUrl(url) == Some((MimeType(objectName), payload))
  {
    MimeTypeIgnoresCase(objectName, objectName);
    DataUrlRoundTrip(MimeType(objectName), payload);
    DataUrl(MimeType(objectName), payload)
  }

  // ---------------------------------------------------------------------
  // The reply
  // ---------------------------------------------------------------------

  const ParseErrorPrefix: string := "Could not parse response as JSON: "

  /** `response_text[:200]`. */
  function Excerpt(text: string): (e: string)
    ensures |e| == if |text| < 200 then |text| else 200
    ensures e == text[..|e|]
  {
    text[..if |text| < 200 then |text| else 200]
  }

  /** `extract_invoice_with_gemini` after the chat call: direct parse, then
      the fenced block, else an error quoting the first 200 characters. */
  function ParseExtraction(responseText: string, parse: Parser): (r: Result<Value, ParseError>)
    ensures parse(responseText).Some? ==> r == Success(parse(responseText).value)
    ensures parse(responseText).None? && FencedBlock(responseText).Some? ==>
              r == (match parse(FencedBlock(responseText).value)
                    case Some(v) => Success(v)
                    case None => Failure(DecodeError))
    ensures parse(responseText).None? && FencedBlock(responseText).None? ==>
              r == Failure(NoJsonFound(ParseErrorPrefix + Excerpt(responseText)))
    ensures r.Failure? && r.error.NoJsonFound? ==>
              && |r.error.message| == |ParseErrorPrefix| + (if |responseText| < 200 then |responseText| else 200)
              && r.error.message[..|ParseErrorPrefix|] == ParseErrorPrefix
              && r.error.message[|ParseErrorPrefix|..] == responseText[..|r.error.message| - |ParseErrorPrefix|]
  {
    var message := ParseErrorPrefix + Excerpt(responseText);
    assert message[..|ParseErrorPrefix|] == ParseErrorPrefix;
    assert message[|ParseErrorPrefix|..] == Excerpt(responseText);
    ParseResponse(responseText, parse, message)
  }

  /** The worked example end to end: a parser that rejects the whole reply
      but decodes its block gives the block's value. */
  lemma ExampleReplyExtracts(parse: Parser, v: Value)
    requires parse(ExampleReply).None? && parse("{\"a\":1}\n") == Some(v)
    ensures ParseExtraction(ExampleReply, parse) == Success(v)
  {
    FencedExample();
  }

  /** Why the handler fails once the model has replied. */
  datatype ExtractError =
    | ReplyNotParsed(cause: ParseError)
    | NotAnObject   // the `.get` calls of the log line on a reply or `metadata` that is not a dict

  /** `invoice_data.get('metadata', {}).get('confidence', 'N/A')`, which the
      handler evaluates for its log line: it raises unless the reply is an
      object whose `metadata`, when present, is an object too. */
  predicate MetadataReadable(data: Value) {
    data.Obj? && Get(data.fields, "metadata", EmptyObject).Obj?
  }

  /** The success payload of the handler. */
  datatype ExtractionOutcome = ExtractionOutcome(
    invoiceId: Value,
    status: string,
    extractionTimestamp: string,
    extractionModel: string,
    invoiceData: Value)

  /** Steps 2 and 3 of `handler`, once the model has replied: parse the
      reply, read its metadata for the log line, and report it. */
  function ExtractInvoice(invoiceId: Value, responseText: string, parse: Parser, timestamp: string, modelId: string)
    : (r: Result<ExtractionOutcome, ExtractError>)
    ensures r.Success? <==> ParseExtraction(responseText, parse).Success? && MetadataReadable(ParseExtraction(responseText, parse).value)
    ensures r.Success? ==>
              && r.value.invoiceData == ParseExtraction(responseText, parse).value
              && r.value.status == "EXTRACTED"
              && r.value.invoiceId == invoiceId
              && r.value.extractionTimestamp == timestamp
              && r.value.extractionModel == modelId
    ensures ParseExtraction(responseText, parse).Failure? ==> r == Failure(ReplyNotParsed(ParseExtraction(responseText, parse).error))
    ensures ParseExtraction(responseText, parse).Success? && !MetadataReadable(ParseExtraction(responseText, parse).value) ==>
              r == Failure(NotAnObject)
  {
    match ParseExtraction(responseText, parse)
    case Failure(e) => Failure(ReplyNotParsed(e))
    case Success(data) =>
      if !MetadataReadable(data) then Failure(NotAnObject)
      else Success(ExtractionOutcome(invoiceId, "EXTRACTED", timestamp, modelId, data))
  }
}
