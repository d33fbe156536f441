/** The gatekeeper that asks the generation backend whether a document is a
    financial document. It accepts everything when no key is configured,
    rejects when the reply cannot be decoded or the call raised, and strips
    a markdown code fence around a JSON object before decoding. The backend
    call is an input (its reply, or that it raised), and so is the JSON
    decoder with validation, as a function from text to an optional verdict. */
module DocumentClassifier {
  import opened Wrappers
  import opened Strings
  import opened PdfExtractor

  datatype ClassificationResult = ClassificationResult(
    isFinancialDocument: bool,
    detectedType: Option<string>,
    reason: string)

  const SkipReason: string := "Skipping validation (no API key)"
  const UnparseableReason: string := "Validation failed: Agent returned unparseable or empty output."
  const InternalErrorReason: string := "Classification unavailable due to an internal error. Please retry."

  /** The length of the text sent for classification. */
  const PreviewLength: nat := 3000

  /** `full_text[:3000]`: the first 3000 characters, or all of a shorter text. */
  function Preview(fullText: string): (p: string)
    ensures |p| == if |fullText| <= PreviewLength then |fullText| else PreviewLength
    ensures StartsWith(fullText, p)
    ensures p == fullText <==> |fullText| <= PreviewLength
  {
    PyPrefix(fullText, PreviewLength)
  }

  // ---------------------------------------------------------------------
  // Fence stripping: re.search(r"```(?:json)?\s*(\{.*?\})\s*```", s, re.DOTALL)
  // ---------------------------------------------------------------------

  /** The first index at or after `i` that is not whitespace (or the end):
      where a greedy `\s*` starting at `i` stops. */
  function SkipSpace(s: string, i: nat): (j: nat)
    requires i <= |s|
    ensures i <= j <= |s|
    ensures forall k :: i <= k < j ==> IsSpace(s[k])
    ensures j == |s| || !IsSpace(s[j])
    decreases |s| - i
  {
    if i < |s| && IsSpace(s[i]) then SkipSpace(s, i + 1) else i
  }

  /** Where the opening brace of the captured object must be for a match
      that starts at `p`, or -1 when the text at `p` is not a fence followed
      (after an optional `json` tag and whitespace) by `{`. When `json`
      follows the backticks the optional group must take it: without it the
      next character is `j`, which neither `\s` nor `{` accepts. */
  function OpenBrace(s: string, p: nat): (q: int)
    ensures q == -1 || (p + 3 <= q < |s| && s[q] == '{')
  {
    if !OccursAt(s, "```", p) then -1
    else
      var afterTag := if OccursAt(s, "json", p + 3) then p + 7 else p + 3;
      var q := SkipSpace(s, afterTag);
      if q < |s| && s[q] == '{' then q else -1
  }

  /** A `}` at `e` closes the object: after it, whitespace and then a fence. */
  predicate ClosesAt(s: string, e: nat) {
    e < |s| && s[e] == '}' && OccursAt(s, "```", SkipSpace(s, e + 1))
  }

  /** The lazy `.*?`: the least `e >= i` at which the object closes, or -1. */
  function FirstClose(s: string, i: nat): (e: int)
    ensures e == -1 || (i <= e && ClosesAt(s, e))
    ensures e == -1 ==> forall k :: i <= k < |s| ==> !ClosesAt(s, k)
    ensures e != -1 ==> forall k :: i <= k < e ==> !ClosesAt(s, k)
    decreases |s| - i
  {
    if i >= |s| then -1
    else if ClosesAt(s, i) then i
    else FirstClose(s, i + 1)
  }

  /** Group 1 of the pattern matched at position `p`, if it matches there. */
  function MatchAt(s: string, p: nat): Option<string> {
    var q := OpenBrace(s, p);
    if q == -1 then None
    else
      var e := FirstClose(s, q + 1);
      if e == -1 then None else Some(s[q..e + 1])
  }

  /** `re.search` from position `p` on: the match at the least position. */
  function SearchFence(s: string, p: nat): Option<string>
    decreases |s| - p
  {
    if p > |s| then None
    else if MatchAt(s, p).Some? then MatchAt(s, p)
    else SearchFence(s, p + 1)
  }

  /** The text handed to the decoder: the fenced object when the reply
      starts with a fence and contains a matching block, else the reply. */
  function StripFences(clean: string): (r: string)
    ensures !StartsWith(clean, "```") ==> r == clean
  {
    if StartsWith(clean, "```") then
      match SearchFence(clean, 0)
      case Some(group) => group
      case None => clean
    else clean
  }

  /** A JSON object wrapped in a fence with an optional `json` tag on its own
      line. */
  function Fenced(tag: string, obj: string): string {
    "```" + tag + "\n" + obj + "\n```"
  }

  /** Whatever the tag, stripping the fence of an object that contains no
      backtick gives back exactly the object. */
  lemma FencedRoundTrip(tag: string, obj: string)
    requires tag == "" || tag == "json"
    requires |obj| >= 2 && obj[0] == '{' && obj[|obj| - 1] == '}'
    requires forall i :: 0 <= i < |obj| ==> obj[i] != '`'
    ensures StripFences(Fenced(tag, obj)) == obj
  {
    var s := Fenced(tag, obj);
    var start := |tag| + 4;
    var last := start + |obj| - 1;
    FencedLayout(tag, obj);
    FencedOpens(tag, obj);
    FencedCloses(tag, obj);
    forall k | start + 1 <= k < last
      ensures !ClosesAt(s, k)
    {
      NoFenceInside(s, start, obj, k);
    }
    FirstCloseIs(s, start + 1, last);
    assert MatchAt(s, 0) == Some(obj);
  }

  /** Where the pieces of a fenced object sit. */
  lemma FencedLayout(tag: string, obj: string)
    ensures var s := Fenced(tag, obj);
            var start := |tag| + 4;
            && |s| == start + |obj| + 4
            && s[..3] == "```"
            && s[start - 1] == '\n'
            && s[start..start + |obj|] == obj
            && s[start + |obj|] == '\n'
            && s[start + |obj| + 1..] == "```"
  {
    var s := Fenced(tag, obj);
    assert s == ("```" + tag + "\n") + obj + ("\n```");
  }

  /** The object's opening brace is where the match at 0 puts it. */
  lemma FencedOpens(tag: string, obj: string)
    requires tag == "" || tag == "json"
    requires |obj| >= 2 && obj[0] == '{'
    ensures OpenBrace(Fenced(tag, obj), 0) == |tag| + 4
  {
    var s := Fenced(tag, obj);
    var start := |tag| + 4;
    FencedLayout(tag, obj);
    assert s[start] == obj[0];
    if tag == "json" {
      assert s[3..7] == "json";
      assert OccursAt(s, "json", 3);
    } else {
      assert s[3] == '\n';
      assert !OccursAt(s, "json", 3);
    }
    assert SkipSpace(s, start) == start;
    assert SkipSpace(s, start - 1) == start;
  }

  /** The object's closing brace is followed by a newline and the fence. */
  lemma FencedCloses(tag: string, obj: string)
    requires |obj| >= 2 && obj[|obj| - 1] == '}'
    ensures ClosesAt(Fenced(tag, obj), |tag| + 4 + |obj| - 1)
  {
    var s := Fenced(tag, obj);
    var last := |tag| + 4 + |obj| - 1;
    FencedLayout(tag, obj);
    assert s[last] == obj[|obj| - 1];
    assert SkipSpace(s, last + 2) == last + 2;
    assert SkipSpace(s, last + 1) == last + 2;
    assert s[last + 2..last + 5] == "```";
  }

  /** Inside the object no `}` is followed, after whitespace, by a fence:
      the run of whitespace ends inside the object, whose last character is
      not whitespace, and the object has no backtick. */
  lemma NoFenceInside(s: string, start: nat, obj: string, k: nat)
    requires start + |obj| <= |s| && |obj| >= 2
    requires s[start..start + |obj|] == obj
    requires obj[|obj| - 1] == '}'
    requires forall i :: 0 <= i < |obj| ==> obj[i] != '`'
    requires start <= k < start + |obj| - 1
    ensures !ClosesAt(s, k)
  {
    var last := start + |obj| - 1;
    assert s[last] == obj[|obj| - 1];
    var j := SkipSpace(s, k + 1);
    assert s[j] == obj[j - start];
    assert s[j] != '`';
  }

  /** `FirstClose` from `i` is `e` when `e` closes and nothing before does. */
  lemma {:induction false} FirstCloseIs(s: string, i: nat, e: nat)
    requires i <= e && ClosesAt(s, e)
    requires forall k :: i <= k < e ==> !ClosesAt(s, k)
    ensures FirstClose(s, i) == e
    decreases e - i
  {
    if i < e {
      FirstCloseIs(s, i + 1, e);
    }
  }

  // ---------------------------------------------------------------------
  // The verdict
  // ---------------------------------------------------------------------

  /** What the backend call did: raised, or returned; `Some(text)` is the
      string form of a truthy `final_output`, `None` a missing or falsy one. */
  datatype ClassifierReply = ClassifierRaised | ClassifierReturned(output: Option<string>)

  /** The verdict for a reply, given the decoder (`json.loads` followed by
      validation; `None` for any of the errors the source handles). */
  function Verdict(reply: ClassifierReply, decode: string -> Option<ClassificationResult>)
    : (v: ClassificationResult)
    // a raised call is an internal-error reject with no detected type
    ensures reply.ClassifierRaised? ==> v == ClassificationResult(false, None, InternalErrorReason)
    // a missing or falsy output is the unparseable reject
    ensures reply == ClassifierReturned(None) ==> v == ClassificationResult(false, None, UnparseableReason)
    // a decodable output is passed on unchanged, an undecodable one is the unparseable reject
    ensures reply.ClassifierReturned? && reply.output.Some? ==>
              v == (match decode(StripFences(Strip(reply.output.value)))
                    case Some(d) => d
                    case None => ClassificationResult(false, None, UnparseableReason))
    // it fails closed: an accepting verdict is a decoded reply, passed on unchanged
    ensures v.isFinancialDocument ==>
              reply.ClassifierReturned? && reply.output.Some?
              && decode(StripFences(Strip(reply.output.value))) == Some(v)
    // a detected type, and any reason other than the two of its own, come from the decoder
    ensures (v.detectedType.Some? || v.reason !in {InternalErrorReason, UnparseableReason}) ==>
              reply.ClassifierReturned? && reply.output.Some?
              && decode(StripFences(Strip(reply.output.value))) == Some(v)
  {
    match reply
    case ClassifierRaised => ClassificationResult(false, None, InternalErrorReason)
    case ClassifierReturned(None) => ClassificationResult(false, None, UnparseableReason)
    case ClassifierReturned(Some(text)) =>
      match decode(StripFences(Strip(text)))
      case Some(result) => result
      case None => ClassificationResult(false, None, UnparseableReason)
  }

  /** `classify_document`: the preview it sends (none without a key) and the
      verdict it returns. */
  function ClassifyDocument(extracted: Extraction, apiKeySet: bool, reply: ClassifierReply,
                            decode: string -> Option<ClassificationResult>)
    : (r: (Option<string>, ClassificationResult))
    ensures !apiKeySet ==> r.0 == None && r.1 == ClassificationResult(true, None, SkipReason)
    ensures apiKeySet ==> r.0 == Some(Preview(extracted.fullText))
    ensures apiKeySet ==> r.1 == Verdict(reply, decode)
    // with a key, only a decoded verdict can accept the document
    ensures apiKeySet && r.1.isFinancialDocument ==>
              reply.ClassifierReturned? && reply.output.Some?
              && decode(StripFences(Strip(reply.output.value))) == Some(r.1)
  {
    if !apiKeySet then (None, ClassificationResult(true, None, SkipReason))
    else (Some(Preview(extracted.fullText)), Verdict(reply, decode))
  }

  /** A reply that is a fenced object decodes as the bare object. */
  lemma FencedReplyDecodesObject(tag: string, obj: string,
                                 decode: string -> Option<ClassificationResult>)
    requires tag == "" || tag == "json"
    requires |obj| >= 2 && obj[0] == '{' && obj[|obj| - 1] == '}'
    requires forall i :: 0 <= i < |obj| ==> obj[i] != '`'
    ensures Verdict(ClassifierReturned(Some(Fenced(tag, obj))), decode)
            == (match decode(obj)
                case Some(result) => result
                case None => ClassificationResult(false, None, UnparseableReason))
  {
    var s := Fenced(tag, obj);
    assert s[0] == '`' && s[|s| - 1] == '`';
    assert TrimStart(s) == s;
    assert TrimEnd(s) == s;
    FencedRoundTrip(tag, obj);
  }
}
