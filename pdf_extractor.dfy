/** Post-processing of an opened PDF: page records numbered from 1 with
    stripped text, the stripped full text, page lookup by number, and a
    case-insensitive search that reports a context window around the first
    occurrence on each page. The PDF library itself is not modelled: a
    document is the sequence of raw texts its pages yield, or the message of
    the error raised while opening it. */
module PdfExtractor {
  import opened Wrappers
  import opened Strings

  /** `{"page_num", "text"}`. */
  datatype Page = Page(pageNum: int, text: string)

  /** `{"full_text", "pages", "page_count"}`; the metadata is not modelled. */
  datatype Extraction = Extraction(fullText: string, pages: seq<Page>, pageCount: int)

  /** `{"page_num", "context"}` of a search hit. */
  datatype Match = Match(pageNum: int, context: string)

  /** What the PDF library delivers: the message of a `PDFExtractionError`
      raised while opening or decrypting, or the raw text of every page. */
  datatype PdfDocument = Unreadable(message: string) | Readable(pageTexts: seq<string>)

  /** The page records for raw page texts. */
  function PageRecords(raw: seq<string>): (pages: seq<Page>)
    ensures |pages| == |raw|
    ensures forall i :: 0 <= i < |raw| ==> pages[i] == Page(i + 1, Strip(raw[i]))
  {
    if raw == [] then []
    else
      var init := raw[..|raw| - 1];
      assert forall i :: 0 <= i < |init| ==> init[i] == raw[i];
      PageRecords(init) + [Page(|raw|, Strip(raw[|raw| - 1]))]
  }

  /** The outcome of `extract_text_from_pdf`: an error message, or the
      extraction. */
  function Extract(doc: PdfDocument): (r: Result<Extraction, string>)
    ensures r.Failure? <==> doc.Unreadable? || doc.pageTexts == []
    ensures doc.Readable? && doc.pageTexts == [] ==> r == Failure("PDF contains no pages")
    ensures doc.Unreadable? ==> r == Failure(doc.message)
  {
    match doc
    case Unreadable(message) => Failure(message)
    case Readable(raw) =>
      if |raw| == 0 then Failure("PDF contains no pages")
      else Success(Extraction(Strip(Join("\n\n", raw)), PageRecords(raw), |raw|))
  }

  /** The page loop of `extract_text_from_pdf`: one record per page and
      the raw texts in order. */
  method AssemblePages(raw: seq<string>) returns (pages: seq<Page>, fullTextParts: seq<string>)
    ensures pages == PageRecords(raw) && fullTextParts == raw
  {
    pages := [];
    fullTextParts := [];
    var pageNum := 0;
    while pageNum < |raw|
      invariant 0 <= pageNum <= |raw|
      invariant pages == PageRecords(raw[..pageNum])
      invariant fullTextParts == raw[..pageNum]
    {
      var text := raw[pageNum];
      PageRecordsSnoc(raw, pageNum);
      pages := pages + [Page(pageNum + 1, Strip(text))];
      fullTextParts := fullTextParts + [text];
      pageNum := pageNum + 1;
    }
    assert raw[..pageNum] == raw;
  }

  lemma PageRecordsSnoc(raw: seq<string>, n: nat)
    requires n < |raw|
    ensures PageRecords(raw[..n + 1]) == PageRecords(raw[..n]) + [Page(n + 1, Strip(raw[n]))]
  {
    assert raw[..n + 1][..n] == raw[..n];
    assert raw[..n + 1][n] == raw[n];
  }

  /** `extract_text_from_pdf` after the document is open. */
  method ExtractText(doc: PdfDocument) returns (r: Result<Extraction, string>)
    ensures r == Extract(doc)
  {
    if doc.Unreadable? {
      return Failure(doc.message);
    }
    var raw := doc.pageTexts;
    if |raw| == 0 {
      return Failure("PDF contains no pages");
    }
    var pages, fullTextParts := AssemblePages(raw);
    var fullText := Join("\n\n", fullTextParts);
    r := Success(Extraction(Strip(fullText), pages, |pages|));
  }

  /** A successful extraction has one record per page, numbered 1, 2, ... in
      document order, each holding that page's stripped text; the count
      equals the number of records; and the full text is the stripped
      blank-line join of the raw texts. */
  lemma ExtractionShape(doc: PdfDocument)
    requires Extract(doc).Success?
    ensures var e := Extract(doc).value;
            && doc.Readable?
            && e.pageCount == |e.pages| == |doc.pageTexts| > 0
            && e.pages[0].pageNum == 1
            && (forall i :: 0 <= i < |e.pages| - 1 ==> e.pages[i + 1].pageNum == e.pages[i].pageNum + 1)
            && (forall i :: 0 <= i < |e.pages| ==> e.pages[i].text == Strip(doc.pageTexts[i]))
            && e.fullText == Strip(Join("\n\n", doc.pageTexts))
  {
  }

  /** A one-page document: the full text is that page's text. */
  lemma SinglePageFullText(raw: string)
    ensures Extract(Readable([raw])).Success?
    ensures Extract(Readable([raw])).value.fullText == Extract(Readable([raw])).value.pages[0].text
  {
  }

  /** `get_text_by_page`: the text of the first record with the requested
      number, or "" when there is none. */
  method GetTextByPage(pages: seq<Page>, pageNum: int) returns (text: string)
    ensures (forall i :: 0 <= i < |pages| ==> pages[i].pageNum != pageNum) ==> text == ""
    ensures forall i :: (0 <= i < |pages| && pages[i].pageNum == pageNum
                         && forall j :: 0 <= j < i ==> pages[j].pageNum != pageNum)
                        ==> text == pages[i].text
  {
    var k := 0;
    while k < |pages|
      invariant 0 <= k <= |pages|
      invariant forall j :: 0 <= j < k ==> pages[j].pageNum != pageNum
    {
      if pages[k].pageNum == pageNum {
        return pages[k].text;
      }
      k := k + 1;
    }
    return "";
  }

  /** In extracted records page `n` sits at index `n - 1`, so a lookup of
      page `n` yields the stripped text of the `n`-th raw page. */
  lemma PageRecordsLookup(raw: seq<string>, n: int)
    requires 1 <= n <= |raw|
    ensures var pages := PageRecords(raw);
            pages[n - 1].pageNum == n
            && (forall j :: 0 <= j < n - 1 ==> pages[j].pageNum != n)
            && pages[n - 1].text == Strip(raw[n - 1])
  {
  }

  /** The context window `[max(0, idx - 50), min(len, idx + len(term) + 50))`
      around the first case-insensitive occurrence of `term`. */
  function Window(text: string, term: string): (w: (int, int))
    requires Contains(Lower(text), Lower(term))
    ensures var idx := Find(Lower(text), Lower(term));
            && 0 <= w.0 <= idx && idx + |term| <= w.1 <= |text|
            && idx - 50 <= w.0 && (w.0 == 0 || w.0 == idx - 50)
            && w.1 <= idx + |term| + 50 && (w.1 == |text| || w.1 == idx + |term| + 50)
  {
    var idx := Find(Lower(text), Lower(term));
    var start := if 0 < idx - 50 then idx - 50 else 0;
    var end := if |text| < idx + |term| + 50 then |text| else idx + |term| + 50;
    (start, end)
  }

  /** The window in terms of the index of the first occurrence. */
  lemma WindowBounds(text: string, term: string)
    requires Contains(Lower(text), Lower(term))
    ensures var idx := Find(Lower(text), Lower(term));
            && 0 <= idx && idx + |term| <= |text|
            && Window(text, term)
               == (if 0 < idx - 50 then idx - 50 else 0,
                   if |text| < idx + |term| + 50 then |text| else idx + |term| + 50)
  {
  }

  /** The window's text with "..." before it when it starts after the
      text's start and "..." after it when it stops before the text's end. */
  function Marked(text: string, start: int, end: int): string
    requires 0 <= start <= end <= |text|
  {
    var context := text[start..end];
    var context := if start > 0 then "..." + context else context;
    if end < |text| then context + "..." else context
  }

  /** After stripping, the markers survive: the context starts with "..."
      when the window starts after the text's start and ends with "..." when
      it stops before the text's end; a window over the whole text gives the
      stripped text. */
  lemma MarkedEllipsis(text: string, start: int, end: int)
    requires 0 <= start <= end <= |text|
    ensures start > 0 ==> StartsWith(Strip(Marked(text, start, end)), "...")
    ensures end < |text| ==> EndsWith(Strip(Marked(text, start, end)), "...")
    ensures start == 0 && end == |text| ==> Strip(Marked(text, start, end)) == Strip(text)
  {
    var c0 := text[start..end];
    var c1 := if start > 0 then "..." + c0 else c0;
    var c2 := Marked(text, start, end);
    if start > 0 {
      assert c2[..3] == c1[..3] == "...";
      StripKeepsPrefix(c2, "...");
    }
    if end < |text| {
      assert c2[|c2| - 3..] == "...";
      StripKeepsSuffix(c2, "...");
    }
    if start == 0 && end == |text| {
      assert c0 == text;
    }
  }

  /** The hit a page yields for a term, if any. */
  function MatchOn(page: Page, term: string): (m: Option<Match>)
    ensures m.Some? <==> Contains(Lower(page.text), Lower(term))
    ensures m.Some? ==> m.value.pageNum == page.pageNum
  {
    if !Contains(Lower(page.text), Lower(term)) then None
    else
      var (start, end) := Window(page.text, term);
      Some(Match(page.pageNum, Strip(Marked(page.text, start, end))))
  }

  /** The hit of a page whose text contains the term, for its window. */
  lemma MatchOnWindow(page: Page, term: string, start: int, end: int)
    requires Contains(Lower(page.text), Lower(term))
    requires (start, end) == Window(page.text, term)
    ensures 0 <= start <= end <= |page.text|
    ensures MatchOn(page, term) == Some(Match(page.pageNum, Strip(Marked(page.text, start, end))))
  {
  }

  /** The hit list of an optional hit. */
  function Hits(m: Option<Match>): seq<Match> {
    match m
    case None => []
    case Some(hit) => [hit]
  }

  /** The hits of a whole page list, in page order. */
  function Search(pages: seq<Page>, term: string): (r: seq<Match>)
    ensures |r| <= |pages|
    decreases |pages|
  {
    if pages == [] then []
    else Search(pages[..|pages| - 1], term) + Hits(MatchOn(pages[|pages| - 1], term))
  }

  /** Searching one more page appends that page's hit, if any. */
  lemma SearchSnoc(pages: seq<Page>, k: nat, term: string)
    requires k < |pages|
    ensures Search(pages[..k + 1], term) == Search(pages[..k], term) + Hits(MatchOn(pages[k], term))
  {
    assert pages[..k + 1][..k] == pages[..k];
  }

  /** The body of the page loop of `search_text_in_pages`: the hit of one
      page, if its text contains the term. */
  method PageHit(page: Page, term: string) returns (hit: Option<Match>)
    ensures hit == MatchOn(page, term)
  {
    var searchLower := Lower(term);
    var text := page.text;
    if !Contains(Lower(text), searchLower) {
      return None;
    }
    var idx := Find(Lower(text), searchLower);
    WindowBounds(text, term);
    var start := if 0 < idx - 50 then idx - 50 else 0;
    var end := if |text| < idx + |term| + 50 then |text| else idx + |term| + 50;
    var context := text[start..end];
    if start > 0 {
      context := "..." + context;
    }
    if end < |text| {
      context := context + "...";
    }
    assert context == Marked(text, start, end);
    MatchOnWindow(page, term, start, end);
    hit := Some(Match(page.pageNum, Strip(context)));
  }

  /** `search_text_in_pages`: the hits of all pages, appended in page order. */
  method SearchTextInPages(pages: seq<Page>, term: string) returns (matches: seq<Match>)
    ensures matches == Search(pages, term)
  {
    matches := [];
    var k := 0;
    while k < |pages|
      invariant 0 <= k <= |pages|
      invariant matches == Search(pages[..k], term)
    {
      var hit := PageHit(pages[k], term);
      SearchSnoc(pages, k, term);
      if hit.Some? {
        matches := matches + [hit.value];
      }
      k := k + 1;
    }
    assert pages[..k] == pages;
  }

  /** A page yields a hit exactly when its lower-cased text contains the
      lower-cased term; the hit carries the page's number, and its context
      starts with "..." when the window starts after the text's start and
      ends with "..." when it stops before the text's end. When the window
      covers the whole text the context is the stripped text. */
  lemma MatchOnSpec(page: Page, term: string)
    ensures MatchOn(page, term).Some? <==> Contains(Lower(page.text), Lower(term))
    ensures MatchOn(page, term).Some? ==>
              var m := MatchOn(page, term).value;
              var w := Window(page.text, term);
              && m.pageNum == page.pageNum
              && (w.0 > 0 ==> StartsWith(m.context, "..."))
              && (w.1 < |page.text| ==> EndsWith(m.context, "..."))
              && (w.0 == 0 && w.1 == |page.text| ==> m.context == Strip(page.text))
  {
    if Contains(Lower(page.text), Lower(term)) {
      var w := Window(page.text, term);
      MarkedEllipsis(page.text, w.0, w.1);
    }
  }

  /** The page's lower-cased text contains the lower-cased term. */
  predicate HasHit(page: Page, term: string) {
    Contains(Lower(page.text), Lower(term))
  }

  /** The indices of the pages that yield a hit, in increasing order. */
  function MatchedIndices(pages: seq<Page>, term: string): seq<nat>
    decreases |pages|
  {
    if pages == [] then []
    else
      MatchedIndices(pages[..|pages| - 1], term)
      + (if HasHit(pages[|pages| - 1], term) then [|pages| - 1] else [])
  }

  /** Hit `k` of the search is the hit of page `MatchedIndices[k]`, so there
      are as many hits as matched pages. */
  lemma {:induction false} SearchOrigins(pages: seq<Page>, term: string)
    ensures var idx, hits := MatchedIndices(pages, term), Search(pages, term);
            && |idx| == |hits|
            && forall k :: 0 <= k < |idx| ==> idx[k] < |pages| && MatchOn(pages[idx[k]], term) == Some(hits[k])
    decreases |pages|
  {
    if pages != [] {
      var n := |pages| - 1;
      var init := pages[..n];
      SearchOrigins(init, term);
      var idx0, hits0 := MatchedIndices(init, term), Search(init, term);
      assert Search(pages, term) == hits0 + Hits(MatchOn(pages[n], term));
      assert MatchedIndices(pages, term) == idx0 + (if HasHit(pages[n], term) then [n] else []);
      forall k | 0 <= k < |idx0|
        ensures idx0[k] < |pages| && MatchOn(pages[idx0[k]], term) == Some(hits0[k])
      {
        assert pages[idx0[k]] == init[idx0[k]];
      }
    }
  }

  /** The matched indices increase strictly, so there is at most one hit per
      page, in page order, and a page is among them exactly when it yields a
      hit. */
  lemma {:induction false} MatchedIndicesOrdered(pages: seq<Page>, term: string)
    ensures var idx := MatchedIndices(pages, term);
            && |idx| <= |pages|
            && (forall k :: 0 <= k < |idx| ==> idx[k] < |pages|)
            && (forall k, l :: 0 <= k < l < |idx| ==> idx[k] < idx[l])
    decreases |pages|
  {
    if pages != [] {
      var n := |pages| - 1;
      var idx0 := MatchedIndices(pages[..n], term);
      var last: seq<nat> := if HasHit(pages[n], term) then [n] else [];
      assert MatchedIndices(pages, term) == idx0 + last;
      MatchedIndicesOrdered(pages[..n], term);
      var idx := idx0 + last;
      forall k | 0 <= k < |idx|
        ensures idx[k] < |pages|
      {
        if k < |idx0| {
          assert idx[k] == idx0[k];
        }
      }
      forall k, l | 0 <= k < l < |idx|
        ensures idx[k] < idx[l]
      {
        assert idx[k] == idx0[k];
        if l >= |idx0| {
          assert idx[l] == n;
        } else {
          assert idx[l] == idx0[l];
        }
      }
    }
  }

  /** A page's index is among the matched ones exactly when the page has a
      hit. */
  lemma {:induction false} MatchedIndicesExact(pages: seq<Page>, term: string)
    ensures var idx := MatchedIndices(pages, term);
            forall i :: 0 <= i < |pages| ==> (HasHit(pages[i], term) <==> i in idx)
    decreases |pages|
  {
    if pages != [] {
      var n := |pages| - 1;
      var init := pages[..n];
      var idx0 := MatchedIndices(init, term);
      var last := if HasHit(pages[n], term) then [n] else [];
      assert MatchedIndices(pages, term) == idx0 + last;
      MatchedIndicesExact(init, term);
      MatchedIndicesOrdered(init, term);
      forall i | 0 <= i < |pages|
        ensures HasHit(pages[i], term) <==> i in idx0 + last
      {
        if i < n {
          assert pages[i] == init[i];
          assert i !in last;
        } else {
          assert n !in idx0;
        }
      }
    }
  }

}
