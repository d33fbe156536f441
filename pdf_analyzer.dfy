/** The gap analyser: which rule text it checks against, the page-marked
    document text it sends, the fixed per-category gap lists it falls back to,
    and how it turns the generation backend's reply into an analysis result.
    The backend call is an input: the reply it produced, or that it raised. */
module PdfAnalyzer {
  import opened Wrappers
  import opened Strings
  import opened PdfExtractor

  /** Where in the document a gap was seen. */
  datatype GapLocation = GapLocation(page: int, quote: string, context: string)

  /** One gap; `severity` is a free label, expected to be "critical", "high"
      or "medium". */
  datatype ComplianceGap = ComplianceGap(
    severity: string,
    title: string,
    description: string,
    regulation: string,
    locations: seq<GapLocation>)

  datatype AnalysisResult = AnalysisResult(gaps: seq<ComplianceGap>, rawObservations: Option<string>)

  // ---------------------------------------------------------------------
  // Rules
  // ---------------------------------------------------------------------

  const SoxRulesText: string := "\n" + @"SOX 404 Compliance Requirements (Sarbanes-Oxley Section 404):

1. ITGC (IT General Controls) - SOX Section 404(a), COSO Framework CC5.1
   - Must document IT controls for all financial reporting systems
   - Must have change management procedures
   - Must have access controls and logging

2. Segregation of Duties - SOX Section 404(b), PCAOB AS 2201.22
   - Transaction initiators cannot be approvers
   - Separation between accounting and custody functions
   - Independent reconciliation required

3. Access Reviews - SOX Section 404, COSO CC6.1
   - Quarterly access reviews required
   - Privileged access monitoring
   - Timely access revocation for terminated employees

4. Documentation Requirements
   - Risk assessment documentation
   - Control testing evidence
   - Management sign-off on control effectiveness

5. Financial Close Controls
   - Account reconciliation procedures
   - Journal entry review process
   - Period-end close timeline compliance
"

  const TenKRulesText: string := "\n" + @"SEC 10-K Filing Compliance Requirements:

1. Risk Factor Disclosures - SEC Regulation S-K Item 105
   - Material risks must be disclosed
   - Cybersecurity risks (if material)
   - Industry-specific risks
   - Economic and market risks

2. MD&A Requirements - SEC Regulation S-K Item 303
   - Liquidity and capital resources discussion
   - Results of operations analysis
   - Forward-looking statements with safe harbor language
   - Critical accounting estimates

3. Executive Compensation - SEC Regulation S-K Item 402
   - Compensation discussion and analysis
   - Performance metrics disclosure
   - Benchmarking disclosure
   - Perquisites and benefits disclosure

4. Financial Statement Compliance
   - GAAP conformity
   - Auditor's report inclusion
   - Management's internal control report

5. Exhibit Requirements
   - Material contracts
   - Certifications (302, 906)
   - Subsidiary list
"

  const EightKRulesText: string := "\n" + @"SEC 8-K Current Report Compliance Requirements:

1. Timely Disclosure - SEC Rule 13a-11
   - Must file within 4 business days of triggering events
   - Material events require immediate disclosure

2. Triggering Events Disclosure
   - Entry into material agreements (Item 1.01)
   - Bankruptcy or receivership (Item 1.03)
   - Material business operations changes (Item 2.01)
   - Financial obligation creation (Item 2.03)
   - Triggering events list complete

3. Financial Statements - Item 9.01
   - Pro forma financials if required
   - Acquired company financials if acquisition
   - Exhibit compliance

4. Officer Changes - Item 5.02
   - Departure of directors/officers
   - Appointment of officers
   - Compensation arrangements
"

  const InvoiceRulesText: string := "\n" + @"Invoice Compliance Requirements:

1. Invoice Documentation Standards
   - Unique invoice number required
   - Date of issue clearly stated
   - Vendor/supplier identification
   - Purchase order reference

2. Tax Compliance
   - Tax identification numbers
   - Applicable tax rates
   - Tax exemption documentation if claimed

3. Payment Terms
   - Clear payment due date
   - Accepted payment methods
   - Late payment penalties disclosed

4. Approval Workflow
   - Authorized approver signature/system
   - Budget code/cost center
   - Three-way match documentation (PO, receipt, invoice)
"

  /** The built-in rule text of a category, "" for a category without one. */
  function BuiltInRules(documentType: string): string {
    if documentType == "SOX 404" then SoxRulesText
    else if documentType == "10-K" then TenKRulesText
    else if documentType == "8-K" then EightKRulesText
    else if documentType == "Invoice" then InvoiceRulesText
    else ""
  }

  const GeneralRules: string := "General financial document compliance standards apply."

  /** The rule text the analysis runs against: the supplied rules when they
      are non-empty, else the category's built-in text, else the general
      sentence. It is never empty. */
  function SelectRules(supplied: Option<string>, documentType: string): (r: string)
    ensures supplied.Some? && supplied.value != "" ==> r == supplied.value
    ensures ((supplied.None? || supplied.value == "") && BuiltInRules(documentType) != "")
              ==> r == BuiltInRules(documentType)
    ensures ((supplied.None? || supplied.value == "") && BuiltInRules(documentType) == "")
              ==> r == GeneralRules
    ensures r != ""
  {
    var rules := if supplied.Some? && supplied.value != "" then supplied.value else BuiltInRules(documentType);
    if rules == "" then GeneralRules else rules
  }

  /** The four categories the route accepts all have built-in rules; every
      other category has none. */
  lemma BuiltInRulesCategories(documentType: string)
    ensures BuiltInRules(documentType) != ""
            <==> documentType in {"SOX 404", "10-K", "8-K", "Invoice"}
  {
    assert |SoxRulesText| > 0 && |TenKRulesText| > 0;
    assert |EightKRulesText| > 0 && |InvoiceRulesText| > 0;
  }

  // ---------------------------------------------------------------------
  // Page-marked text
  // ---------------------------------------------------------------------

  /** The block one page contributes: a page marker line, then its text. */
  function PageBlock(page: Page): string {
    "\n\n--- PAGE " + IntToString(page.pageNum) + " ---\n" + page.text
  }

  /** The blocks of all pages, in order. */
  function PagesText(pages: seq<Page>): string {
    if pages == [] then "" else PageBlock(pages[0]) + PagesText(pages[1..])
  }

  /** The page text of two runs of pages is the page text of the first
      followed by that of the second. */
  lemma {:induction false} PagesTextAppend(a: seq<Page>, b: seq<Page>)
    ensures PagesText(a + b) == PagesText(a) + PagesText(b)
  {
    if a == [] {
      assert a + b == b;
    } else {
      assert (a + b)[0] == a[0];
      assert (a + b)[1..] == a[1..] + b;
      PagesTextAppend(a[1..], b);
    }
  }

  /** The `pages_text +=` loop of `analyze_pdf`. */
  lemma PagesTextSnoc(pages: seq<Page>, k: nat)
    requires k < |pages|
    ensures PagesText(pages[..k + 1]) == PagesText(pages[..k]) + PageBlock(pages[k])
  {
    assert pages[..k + 1] == pages[..k] + [pages[k]];
    PagesTextAppend(pages[..k], [pages[k]]);
    assert PagesText([pages[k]]) == PageBlock(pages[k]) + PagesText([]);
  }

  method BuildPagesText(pages: seq<Page>) returns (pagesText: string)
    ensures pagesText == PagesText(pages)
  {
    pagesText := "";
    var k := 0;
    while k < |pages|
      invariant 0 <= k <= |pages|
      invariant pagesText == PagesText(pages[..k])
    {
      PagesTextSnoc(pages, k);
      pagesText := pagesText + PageBlock(pages[k]);
      k := k + 1;
    }
    assert pages[..k] == pages;
  }

  /** Each page block starts with a blank line and the marker of its page,
      so the page text is empty exactly when there are no pages, and it
      starts with the first page's marker. */
  lemma PagesTextEmpty(pages: seq<Page>)
    ensures PagesText(pages) == "" <==> pages == []
    ensures pages != [] ==> StartsWith(PagesText(pages), "\n\n--- PAGE " + IntToString(pages[0].pageNum) + " ---\n")
  {
    if pages != [] {
      var marker := "\n\n--- PAGE " + IntToString(pages[0].pageNum) + " ---\n";
      var rest := pages[0].text + PagesText(pages[1..]);
      assert PagesText(pages) == marker + rest;
      assert (marker + rest)[..|marker|] == marker;
    }
  }

  // ---------------------------------------------------------------------
  // Fallback analysis
  // ---------------------------------------------------------------------

  /** The fallback gaps of a SOX 404 document. */
  const SoxMockGaps: seq<ComplianceGap> := [
    ComplianceGap(
      "critical",
      "Missing ITGC Documentation",
      "No evidence of IT General Controls documentation for financial reporting systems.",
      "SOX Section 404(a) \U{2014} COSO Framework CC5.1",
      [GapLocation(1, "Document lacks ITGC controls description", "General")]),
    ComplianceGap(
      "high",
      "Inadequate Segregation of Duties",
      "Same personnel responsible for transaction initiation and approval.",
      "SOX Section 404(b) \U{2014} PCAOB AS 2201.22",
      [GapLocation(1, "No segregation of duties policy found", "General")]),
    ComplianceGap(
      "medium",
      "No Quarterly Access Review",
      "Access logs for financial systems not reviewed on a quarterly basis.",
      "SOX Section 404 \U{2014} COSO CC6.1",
      [GapLocation(1, "Access review frequency not specified", "General")])
  ]

  /** The fallback gaps of a 10-K or 8-K filing. */
  const FilingMockGaps: seq<ComplianceGap> := [
    ComplianceGap(
      "high",
      "Risk Factor Disclosure Gap",
      "Material risks not adequately disclosed in risk factors section.",
      "SEC Regulation S-K Item 105",
      [GapLocation(1, "Limited risk disclosure found", "Risk Factors")]),
    ComplianceGap(
      "medium",
      "Forward-Looking Statements",
      "Forward-looking statements lack sufficient cautionary language.",
      "SEC Regulation S-K Item 303",
      [GapLocation(1, "Missing safe harbor language", "MD&A")]),
    ComplianceGap(
      "medium",
      "Executive Compensation Disclosure",
      "Performance metrics for compensation not fully disclosed.",
      "SEC Regulation S-K Item 402",
      [GapLocation(1, "Compensation metrics unclear", "Executive Compensation")])
  ]

  /** The fallback gaps of any other category. */
  const OtherMockGaps: seq<ComplianceGap> := [
    ComplianceGap(
      "high",
      "Documentation Gap",
      "Required documentation elements are missing or incomplete.",
      "General compliance standards",
      [GapLocation(1, "Incomplete documentation", "General")]),
    ComplianceGap(
      "medium",
      "Approval Workflow Missing",
      "No evidence of proper approval workflow.",
      "Internal control standards",
      [GapLocation(1, "No approval signatures found", "General")])
  ]

  /** `_mock_analysis`: the fixed gaps of the category, without observations. */
  function MockAnalysis(documentType: string): (r: AnalysisResult)
    ensures r.rawObservations.None?
    ensures documentType == "SOX 404" ==> r.gaps == SoxMockGaps
    ensures documentType in {"10-K", "8-K"} ==> r.gaps == FilingMockGaps
    ensures documentType !in {"SOX 404", "10-K", "8-K"} ==> r.gaps == OtherMockGaps
  {
    if documentType == "SOX 404" then AnalysisResult(SoxMockGaps, None)
    else if documentType == "10-K" || documentType == "8-K" then AnalysisResult(FilingMockGaps, None)
    else AnalysisResult(OtherMockGaps, None)
  }

  /** The severity labels of a gap list, in order. */
  function Severities(gaps: seq<ComplianceGap>): (r: seq<string>)
    ensures |r| == |gaps| && forall i :: 0 <= i < |gaps| ==> r[i] == gaps[i].severity
  {
    seq(|gaps|, i requires 0 <= i < |gaps| => gaps[i].severity)
  }

  /** The fallback severities: critical, high, medium for SOX 404; high,
      medium, medium for 10-K and 8-K; high, medium for anything else. */
  lemma MockSeverities(documentType: string)
    ensures documentType == "SOX 404" ==>
              Severities(MockAnalysis(documentType).gaps) == ["critical", "high", "medium"]
    ensures documentType in {"10-K", "8-K"} ==>
              Severities(MockAnalysis(documentType).gaps) == ["high", "medium", "medium"]
    ensures documentType !in {"SOX 404", "10-K", "8-K"} ==>
              Severities(MockAnalysis(documentType).gaps) == ["high", "medium"]
  {
  }

  /** Every fallback gap has one of the three expected labels and exactly
      one location, on page 1. */
  lemma MockGapsWellFormed(documentType: string)
    ensures var gaps := MockAnalysis(documentType).gaps;
            forall i :: 0 <= i < |gaps| ==>
              && gaps[i].severity in {"critical", "high", "medium"}
              && |gaps[i].locations| == 1
              && gaps[i].locations[0].page == 1
  {
  }

  // ---------------------------------------------------------------------
  // The backend's reply
  // ---------------------------------------------------------------------

  /** `json.loads` of a text reply followed by `AnalysisResult(**data)`. */
  datatype JsonAnalysis =
    | NotJson
      // the text is not JSON, or decodes to something other than an object
      // (a `JSONDecodeError` or `TypeError`, handled next to the decoding)
    | WrongSchema
      // an object that fails validation; the validation error is not one of
      // the handled types and reaches the outer handler
    | Decoded(result: AnalysisResult)

  /** The backend's `final_output`. */
  datatype AnalysisOutput =
    | NoAnalysisOutput
      // the attribute is missing or falsy
    | StructuredAnalysis(result: AnalysisResult)
      // an instance of the result class
    | AnalysisText(text: string, decoded: JsonAnalysis)

  /** What the backend call did: raised, or returned an output. */
  datatype AnalysisReply = AnalysisRaised | AnalysisReturned(output: AnalysisOutput)

  /** The result `analyze_pdf` returns. */
  function AnalysisOutcome(documentType: string, apiKeySet: bool, reply: AnalysisReply): (r: AnalysisResult)
    ensures !apiKeySet || reply.AnalysisRaised? ==> r == MockAnalysis(documentType)
    ensures r.gaps != MockAnalysis(documentType).gaps ==> apiKeySet && reply.AnalysisReturned?
  {
    var mock := MockAnalysis(documentType);
    if !apiKeySet then mock
    else match reply
      case AnalysisRaised => mock
      case AnalysisReturned(NoAnalysisOutput) => mock
      case AnalysisReturned(StructuredAnalysis(result)) => result
      case AnalysisReturned(AnalysisText(text, decoded)) =>
        if text == "" then mock
        else match decoded
          case NotJson => AnalysisResult(mock.gaps, Some(text))
          case WrongSchema => mock
          case Decoded(result) => result
  }

  /** The backend's own result is used exactly when the key is set and the
      call returned a result object, directly or as valid JSON text;
      unparseable text keeps the fallback gaps and records the text; every
      other case is exactly the fallback analysis. */
  lemma AnalysisOutcomeCases(documentType: string, apiKeySet: bool, reply: AnalysisReply)
    ensures var r := AnalysisOutcome(documentType, apiKeySet, reply);
            var mock := MockAnalysis(documentType);
            && (!apiKeySet ==> r == mock)
            && (reply.AnalysisRaised? ==> r == mock)
            && (apiKeySet && reply == AnalysisReturned(NoAnalysisOutput) ==> r == mock)
            && (apiKeySet && reply.AnalysisReturned? && reply.output.AnalysisText? && reply.output.text == "" ==> r == mock)
            && (apiKeySet && reply.AnalysisReturned? && reply.output.StructuredAnalysis? ==> r == reply.output.result)
            && (apiKeySet && reply.AnalysisReturned? && reply.output.AnalysisText? && reply.output.text != "" ==>
                  match reply.output.decoded
                  case NotJson => r.gaps == mock.gaps && r.rawObservations == Some(reply.output.text)
                  case WrongSchema => r == mock
                  case Decoded(result) => r == result)
  {
  }

  /** Whatever the reply, the result's gaps are either the fallback gaps of
      the category or gaps the backend produced itself. */
  lemma AnalysisGapsOrigin(documentType: string, apiKeySet: bool, reply: AnalysisReply)
    ensures var r := AnalysisOutcome(documentType, apiKeySet, reply);
            r.gaps == MockAnalysis(documentType).gaps
            || (apiKeySet && reply.AnalysisReturned?
                && (reply.output == StructuredAnalysis(r)
                    || (reply.output.AnalysisText? && reply.output.decoded == Decoded(r))))
  {
  }

  /** What `analyze_pdf` would send with the request: the rule text and the
      page-marked document text. */
  datatype AnalysisRequest = AnalysisRequest(rules: string, pagesText: string)

  /** `analyze_pdf`: the request it assembles and the result it returns. */
  method AnalyzePdf(extracted: Extraction, documentType: string, complianceRules: Option<string>,
                    apiKeySet: bool, reply: AnalysisReply)
    returns (request: AnalysisRequest, result: AnalysisResult)
    ensures request.rules == SelectRules(complianceRules, documentType)
    ensures request.pagesText == PagesText(extracted.pages)
    ensures result == AnalysisOutcome(documentType, apiKeySet, reply)
  {
    var rules := if complianceRules.Some? && complianceRules.value != "" then complianceRules.value
                 else BuiltInRules(documentType);
    if rules == "" {
      rules := GeneralRules;
    }
    var pagesText := BuildPagesText(extracted.pages);
    request := AnalysisRequest(rules, pagesText);

    if !apiKeySet {
      return request, MockAnalysis(documentType);
    }
    match reply {
      case AnalysisRaised =>
        result := MockAnalysis(documentType);
      case AnalysisReturned(output) =>
        match output {
          case NoAnalysisOutput =>
            result := MockAnalysis(documentType);
          case StructuredAnalysis(r) =>
            result := r;
          case AnalysisText(text, decoded) =>
            if text == "" {
              result := MockAnalysis(documentType);
            } else {
              match decoded {
                case NotJson =>
                  result := AnalysisResult(MockAnalysis(documentType).gaps, Some(text));
                case WrongSchema =>
                  result := MockAnalysis(documentType);
                case Decoded(r) =>
                  result := r;
              }
            }
        }
    }
  }
}
