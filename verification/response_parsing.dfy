/** The direct-then-fenced JSON fallback both model call sites use on the
    model's reply: `json.loads(text)`, and on a decode error the first
    match of the regular expression ```` ```(?:json)?\s*([\s\S]*?)``` ````. */
module ResponseParsing {
  import opened Wrappers
  import opened Json

  /** A three-backtick marker starts at position `i` of `s`. */
  predicate FenceAt(s: string, i: int) {
    0 <= i && i + 3 <= |s| && s[i] == '`' && s[i + 1] == '`' && s[i + 2] == '`'
  }

  /** No marker starts anywhere in `[from, to)`. */
  predicate NoFenceIn(s: string, from: int, to: int) {
    forall k :: from <= k < to ==> !FenceAt(s, k)
  }

  /** The leftmost marker at or after `from`. */
  function FindFence(s: string, from: nat): (r: Option<nat>)
    decreases |s| - from
    ensures r.Some? ==> from <= r.value && FenceAt(s, r.value) && NoFenceIn(s, from, r.value)
    ensures r.None? ==> NoFenceIn(s, from, |s|)
  {
    if from + 3 > |s| then None
    else if FenceAt(s, from) then Some(from)
    else FindFence(s, from + 1)
  }

  /** Python's `\s` on a `str` pattern: exactly the characters for which
      `str.isspace()` holds. */
  predicate IsSpace(c: char) {
    || c == ' '
    || '\U{9}' <= c <= '\U{D}'
    || '\U{1C}' <= c <= '\U{1F}'
    || c == '\U{85}' || c == '\U{A0}' || c == '\U{1680}'
    || '\U{2000}' <= c <= '\U{200A}'
    || c == '\U{2028}' || c == '\U{2029}' || c == '\U{202F}' || c == '\U{205F}'
    || c == '\U{3000}'
  }

  /** `(?:json)?` tried greedily at `k`: the tag is consumed when present. */
  function SkipTag(s: string, k: nat): (p: nat)
    requires k <= |s|
    ensures k <= p <= |s|
    ensures forall m :: k <= m < p ==> s[m] != '`'
  {
    if k + 4 <= |s| && s[k..k + 4] == "json" then
      assert forall m :: k <= m < k + 4 ==> s[m] == "json"[m - k];
      k + 4
    else k
  }

  /** `\s*` tried greedily at `k`: the end of the whitespace run. */
  function SkipSpaces(s: string, k: nat): (p: nat)
    requires k <= |s|
    decreases |s| - k
    ensures k <= p <= |s|
    ensures forall m :: k <= m < p ==> IsSpace(s[m])
    ensures p == |s| || !IsSpace(s[p])
  {
    if k < |s| && IsSpace(s[k]) then SkipSpaces(s, k + 1) else k
  }

  /** Where the captured group begins for a block opened by the marker at `i`. */
  function ContentStart(s: string, i: nat): (p: nat)
    requires FenceAt(s, i)
    ensures i + 3 <= p <= |s|
    ensures forall m :: i + 3 <= m < p ==> s[m] != '`'
  {
    SkipSpaces(s, SkipTag(s, i + 3))
  }

  /** No marker can begin inside the tag or the whitespace after an opening marker. */
  lemma NoFenceBeforeContent(s: string, i: nat)
    requires FenceAt(s, i)
    ensures NoFenceIn(s, i + 3, ContentStart(s, i))
  {
  }

  /** A stretch without markers does not change where the next marker is found. */
  lemma {:induction false} FindFenceSkips(s: string, q: nat, p: nat)
    requires q <= p && NoFenceIn(s, q, p)
    decreases p - q
    ensures FindFence(s, q) == FindFence(s, p)
  {
    if q < p && q + 3 <= |s| {
      FindFenceSkips(s, q + 1, p);
    }
  }

  /** Group 1 of the first match of ```` ```(?:json)?\s*([\s\S]*?)``` ````,
      or `None` when `re.search` finds no match. */
  function FencedBlock(s: string): (r: Option<string>)
    ensures r.Some? <==> exists i, j :: FenceAt(s, i) && FenceAt(s, j) && i + 3 <= j
    ensures r.Some? ==> NoFenceIn(r.value, 0, |r.value|)
    ensures r.Some? ==> exists i, j :: FenceAt(s, i) && NoFenceIn(s, 0, i) && FenceAt(s, j)
                                      && ContentStart(s, i) <= j && NoFenceIn(s, ContentStart(s, i), j)
                                      && r.value == s[ContentStart(s, i)..j]
  {
    match FindFence(s, 0)
    case None => None
    case Some(i) =>
      var p := ContentStart(s, i);
      match FindFence(s, p)
      case None =>
        NoFenceBeforeContent(s, i);
        None
      case Some(j) =>
        var c := s[p..j];
        assert forall k :: 0 <= k < |c| ==> FenceAt(c, k) ==> FenceAt(s, p + k);
        Some(c)
  }

  /** Why `re.search` never has to backtrack: whichever way it gives up the
      optional tag or part of the whitespace at the first marker `i`, the
      lazy group restarts at some `q` between `i + 3` and the greedy content
      start, and from there it meets the very same closing marker. So the
      greedy attempt fails exactly when every alternative at `i` fails. */
  lemma BacktrackingFindsSameClose(s: string, i: nat, q: nat)
    requires FenceAt(s, i) && i + 3 <= q <= ContentStart(s, i)
    ensures FindFence(s, q) == FindFence(s, ContentStart(s, i))
  {
    NoFenceBeforeContent(s, i);
    FindFenceSkips(s, q, ContentStart(s, i));
  }

  /** Why the leftmost marker is the only start that matters: when it has
      no marker three or more places after it, no later one does either. */
  lemma LaterStartsFailToo(s: string, i: nat, i': nat)
    requires FindFence(s, 0) == Some(i) && FenceAt(s, i')
    requires FindFence(s, ContentStart(s, i)).None?
    ensures FindFence(s, i' + 3).None?
  {
    NoFenceBeforeContent(s, i);
    assert NoFenceIn(s, i + 3, |s|);
  }

  /** The worked example: a reply that introduces its JSON with a sentence
      and wraps it in a fence tagged `json`. */
  const ExampleReply: string := "Here you go:\n```json\n{\"a\":1}\n```"

  /** The opening fence of the example is at 13. */
  lemma ExampleOpening()
    ensures FindFence(ExampleReply, 0) == Some(13)
  {
    var s := ExampleReply;
    assert FenceAt(s, 13);
    assert FindFence(s, 12) == Some(13);
    assert FindFence(s, 11) == Some(13);
    assert FindFence(s, 10) == Some(13);
    assert FindFence(s, 9) == Some(13);
    assert FindFence(s, 8) == Some(13);
    assert FindFence(s, 7) == Some(13);
    assert FindFence(s, 6) == Some(13);
    assert FindFence(s, 5) == Some(13);
    assert FindFence(s, 4) == Some(13);
    assert FindFence(s, 3) == Some(13);
    assert FindFence(s, 2) == Some(13);
    assert FindFence(s, 1) == Some(13);
    assert FindFence(s, 0) == Some(13);
  }

  /** Its content starts after the tag and the newline, at 21. */
  lemma ExampleContentStart()
    ensures FenceAt(ExampleReply, 13) && ContentStart(ExampleReply, 13) == 21
  {
    var s := ExampleReply;
    assert FenceAt(s, 13);
    assert SkipTag(s, 16) == 20 by {
      assert s[16] == 'j' && s[17] == 's' && s[18] == 'o' && s[19] == 'n';
      assert s[16..20] == "json";
    }
    assert SkipSpaces(s, 20) == 21 by {
      assert IsSpace(s[20]);
      assert s[21] == '{' && !IsSpace(s[21]);
    }
  }

  /** The closing fence of the example is at 29. */
  lemma ExampleClosing()
    ensures FindFence(ExampleReply, 21) == Some(29)
  {
    var s := ExampleReply;
    assert NoFenceIn(s, 21, 29) by {
      forall k | 21 <= k < 29 ensures !FenceAt(s, k) { assert s[k] != '`'; }
    }
    FindFenceSkips(s, 21, 29);
    assert FenceAt(s, 29);
  }

  /** The example yields the text between the newline after the tag and
      the closing fence, its own trailing newline included. */
  lemma FencedExample()
    ensures FencedBlock(ExampleReply) == Some("{\"a\":1}\n")
  {
    ExampleOpening();
    ExampleContentStart();
    ExampleClosing();
    assert ExampleReply[21..29] == "{\"a\":1}\n";
  }

  /** What a failed parse raises. */
  datatype ParseError =
    | DecodeError              // the fenced block was found but is not JSON
    | NoJsonFound(message: string)

  /** Direct parse first; on failure the fenced block, whose own decode
      error propagates; with no block, the call site's error message. */
  function ParseResponse(text: string, parse: Parser, notFound: string): (r: Result<Value, ParseError>)
    ensures parse(text).Some? ==> r == Success(parse(text).value)
    ensures parse(text).None? && FencedBlock(text).None? ==> r == Failure(NoJsonFound(notFound))
    ensures parse(text).None? && FencedBlock(text).Some? ==>
              r == (match parse(FencedBlock(text).value)
                    case Some(v) => Success(v)
                    case None => Failure(DecodeError))
  {
    match parse(text)
    case Some(v) => Success(v)
    case None =>
      match FencedBlock(text)
      case None => Failure(NoJsonFound(notFound))
      case Some(block) =>
        match parse(block)
        case Some(v) => Success(v)
        case None => Failure(DecodeError)
  }
}
