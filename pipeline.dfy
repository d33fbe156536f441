/** The orchestrator: extraction, rule research, gap analysis and report
    generation run one after another, each on the previous stage's output,
    and their results are assembled into one audit record. The stages'
    nondeterministic parts (the backend replies, whether keys are set) are
    inputs, and so are the random identifier and the clock reading. */
module Pipeline {
  import opened Wrappers
  import opened Strings
  import opened AuditTypes
  import opened PdfExtractor
  import opened ComplianceResearcher
  import opened PdfAnalyzer
  import opened ReportGenerator

  /** What the orchestrator raises: a `ValueError` the route maps to an error
      code, or any other exception. */
  datatype PipelineError = ValueError(message: string) | InternalError(message: string)

  /** The stages in the order they ran, each with what it was given. */
  datatype Stage =
    | ExtractStage
    | ResearchStage(documentType: string)
    | AnalyseStage(request: AnalysisRequest)
    | ReportStage(auditId: string, gaps: seq<GapDict>)

  // ---------------------------------------------------------------------
  // Audit identifier
  // ---------------------------------------------------------------------

  predicate IsLowerHexDigit(c: char) {
    ('0' <= c <= '9') || ('a' <= c <= 'f')
  }

  predicate IsLowerHex(s: string) {
    forall i :: 0 <= i < |s| ==> IsLowerHexDigit(s[i])
  }

  /** `"aud_" + uuid4().hex[:8]`, given the 32-digit hex form of the uuid. */
  function AuditId(uuidHex: string): (id: string)
    requires |uuidHex| == 32 && IsLowerHex(uuidHex)
    ensures |id| == 12 && StartsWith(id, "aud_") && IsLowerHex(id[4..])
    ensures id[4..] == uuidHex[..8]
  {
    "aud_" + uuidHex[..8]
  }

  // ---------------------------------------------------------------------
  // Gap conversion
  // ---------------------------------------------------------------------

  function ToLocationDict(loc: GapLocation): LocationDict {
    LocationDict(loc.page, loc.quote, loc.context)
  }

  /** One analyser gap as the dictionary the report stage reads. */
  function ToGapDict(gap: ComplianceGap): GapDict {
    GapDict(gap.severity, gap.title, gap.description, gap.regulation,
            seq(|gap.locations|, i requires 0 <= i < |gap.locations| => ToLocationDict(gap.locations[i])))
  }

  /** The list comprehension that converts the analyser's gaps. */
  function ToGapDicts(gaps: seq<ComplianceGap>): (r: seq<GapDict>)
    ensures |r| == |gaps|
  {
    seq(|gaps|, i requires 0 <= i < |gaps| => ToGapDict(gaps[i]))
  }

  function FromLocationDict(loc: LocationDict): GapLocation {
    GapLocation(loc.page, loc.quote, loc.context)
  }

  /** The inverse reading: a gap dictionary as an analyser gap. */
  function FromGapDict(d: GapDict): ComplianceGap {
    ComplianceGap(d.severity, d.title, d.description, d.regulation,
                  seq(|d.locations|, i requires 0 <= i < |d.locations| => FromLocationDict(d.locations[i])))
  }

  function FromGapDicts(ds: seq<GapDict>): seq<ComplianceGap> {
    seq(|ds|, i requires 0 <= i < |ds| => FromGapDict(ds[i]))
  }

  /** The conversion loses nothing: every gap, in the same order, with the
      same fields and the same locations, can be read back. */
  lemma GapDictsRoundTrip(gaps: seq<ComplianceGap>)
    ensures FromGapDicts(ToGapDicts(gaps)) == gaps
  {
    forall i | 0 <= i < |gaps|
      ensures FromGapDict(ToGapDict(gaps[i])) == gaps[i]
    {
      var g := gaps[i];
      var back := FromGapDict(ToGapDict(g));
      assert back.locations == g.locations;
    }
  }

  /** The conversion keeps every severity label, so the report stage scores
      exactly the analyser's gaps. */
  lemma {:induction false} ToGapDictsPenalty(gaps: seq<ComplianceGap>)
    ensures Penalty(ToGapDicts(gaps)) == PenaltyOfGaps(gaps)
  {
    if gaps != [] {
      assert ToGapDicts(gaps)[1..] == ToGapDicts(gaps[1..]);
      ToGapDictsPenalty(gaps[1..]);
    }
  }

  /** The penalty of analyser gaps, read directly from their severities. */
  function PenaltyOfGaps(gaps: seq<ComplianceGap>): nat {
    if gaps == [] then 0 else Weight(gaps[0].severity) + PenaltyOfGaps(gaps[1..])
  }

  // ---------------------------------------------------------------------
  // Rule hand-off
  // ---------------------------------------------------------------------

  /** The message of the error `.get` raises on the research result, which
      is a schema object and not a dictionary. */
  const AttributeErrorMessage: string := "'ComplianceRulesSchema' object has no attribute 'get'"

  /** The hand-off as written: `compliance_research.get("rules", "")` on a
      schema object, which has no `get`, so it raises for every category. */
  function RulesHandOffAsWritten(research: ComplianceRulesSchema): (r: Result<string, string>)
    ensures r == Failure(AttributeErrorMessage)
  {
    Failure(AttributeErrorMessage)
  }

  /** One rule as a line of prose for the analyser's prompt. */
  function RuleLine(rule: ComplianceRule): (line: string)
    ensures StartsWith(line, "- [")
  {
    "- [" + rule.severity + "] " + rule.ruleId + ": " + rule.description + " (" + rule.regulation + ")"
  }

  function RuleLines(rules: seq<ComplianceRule>): (lines: seq<string>)
    ensures |lines| == |rules|
    ensures forall i :: 0 <= i < |rules| ==> lines[i] == RuleLine(rules[i])
  {
    seq(|rules|, i requires 0 <= i < |rules| => RuleLine(rules[i]))
  }

  /** The corrected hand-off: the research result's rules rendered one per
      line. It is empty exactly when there are no rules, which is what makes
      the analyser fall back to its built-in text. */
  function RulesText(research: ComplianceRulesSchema): (t: string)
    ensures t == "" <==> research.rules == []
  {
    var lines := RuleLines(research.rules);
    if lines == [] then ""
    else
      JoinStartsWithFirst("\n", lines);
      Join("\n", lines)
  }

  /** With the corrected hand-off, the analyser is given the researched rules
      for the three categories that have a table, the built-in text for
      "8-K", and the general sentence for any other category. */
  lemma AnalysedRules(documentType: string)
    ensures var rules := SelectRules(Some(RulesText(ResearchComplianceRules(documentType))), documentType);
            && (documentType in {"SOX 404", "10-K", "Invoice"} ==>
                  rules == RulesText(ResearchComplianceRules(documentType)))
            && (documentType == "8-K" ==> rules == EightKRulesText)
            && (documentType !in {"SOX 404", "10-K", "8-K", "Invoice"} ==> rules == GeneralRules)
  {
    ResearchTables(documentType);
    BuiltInRulesCategories(documentType);
    if documentType == "8-K" {
      assert |EightKRulesText| > 0;
    }
  }

  // ---------------------------------------------------------------------
  // The audit
  // ---------------------------------------------------------------------

  /** The result dictionary, built from the report and the converted gaps. */
  function Assemble(auditId: string, timestamp: string, documentName: string, documentType: string,
                    userId: string, source: string, gaps: seq<GapDict>, report: Report): AuditRecord {
    AuditRecord(auditId, userId, source, report.score, report.grade, documentName, documentType,
                timestamp, gaps, report.remediation, report.executiveSummary,
                "/api/files/report_" + auditId + ".pdf")
  }

  /** What `run_audit_pipeline` returns or raises, with the corrected
      rule hand-off. */
  function AuditOutcome(auditId: string, timestamp: string, doc: PdfDocument, documentName: string,
                        documentType: string, userId: string, source: string,
                        analyzerKeySet: bool, analysisReply: AnalysisReply,
                        reporterKeySet: bool, reportReply: ReportReply): (r: Result<AuditRecord, PipelineError>)
    ensures r.Failure? <==> Extract(doc).Failure?
    ensures r.Failure? ==> r.error.ValueError?
    ensures r.Success? ==> r.value.auditId == auditId && r.value.reportPdfUrl == ReportUrl(auditId)
    ensures r.Success? ==> r.value.score == Score(r.value.gaps) && r.value.grade == Grade(r.value.score)
  {
    match Extract(doc)
    case Failure(message) => Failure(ValueError("PDF extraction failed: " + message))
    case Success(_) =>
      var gaps := ToGapDicts(AnalysisOutcome(documentType, analyzerKeySet, analysisReply).gaps);
      var report := ReportOf(auditId, gaps, documentType, reporterKeySet, reportReply);
      Success(Assemble(auditId, timestamp, documentName, documentType, userId, source, gaps, report))
  }

  /** The same, with the rule hand-off as written. */
  function AuditOutcomeAsWritten(auditId: string, timestamp: string, doc: PdfDocument, documentName: string,
                                 documentType: string, userId: string, source: string,
                                 analyzerKeySet: bool, analysisReply: AnalysisReply,
                                 reporterKeySet: bool, reportReply: ReportReply): Result<AuditRecord, PipelineError>
  {
    match Extract(doc)
    case Failure(message) => Failure(ValueError("PDF extraction failed: " + message))
    case Success(_) =>
      match RulesHandOffAsWritten(ResearchComplianceRules(documentType))
      case Failure(error) => Failure(InternalError(error))
      case Success(_) =>
        AuditOutcome(auditId, timestamp, doc, documentName, documentType, userId, source,
                     analyzerKeySet, analysisReply, reporterKeySet, reportReply)
  }

  /** As written, no audit ever completes: a document that extracts reaches
      the hand-off and raises an error that is not a `ValueError`, exactly
      where the corrected pipeline returns a record. */
  lemma AsWrittenNeverCompletes(auditId: string, timestamp: string, doc: PdfDocument, documentName: string,
                                documentType: string, userId: string, source: string,
                                analyzerKeySet: bool, analysisReply: AnalysisReply,
                                reporterKeySet: bool, reportReply: ReportReply)
    ensures var asWritten := AuditOutcomeAsWritten(auditId, timestamp, doc, documentName, documentType, userId,
                                                   source, analyzerKeySet, analysisReply, reporterKeySet, reportReply);
            var corrected := AuditOutcome(auditId, timestamp, doc, documentName, documentType, userId,
                                          source, analyzerKeySet, analysisReply, reporterKeySet, reportReply);
            && asWritten.Failure?
            && (asWritten.error.InternalError? <==> corrected.Success?)
            && (corrected.Failure? ==> asWritten == corrected)
  {
  }

  /** The pipeline raises exactly when extraction fails, and then with a
      `ValueError` carrying the extraction prefix. */
  lemma AuditOutcomeFails(auditId: string, timestamp: string, doc: PdfDocument, documentName: string,
                          documentType: string, userId: string, source: string,
                          analyzerKeySet: bool, analysisReply: AnalysisReply,
                          reporterKeySet: bool, reportReply: ReportReply)
    ensures var r := AuditOutcome(auditId, timestamp, doc, documentName, documentType, userId,
                                  source, analyzerKeySet, analysisReply, reporterKeySet, reportReply);
            && (r.Failure? <==> Extract(doc).Failure?)
            && (r.Failure? ==> r.error.ValueError? && StartsWith(r.error.message, "PDF extraction failed:"))
  {
    var r := AuditOutcome(auditId, timestamp, doc, documentName, documentType, userId,
                          source, analyzerKeySet, analysisReply, reporterKeySet, reportReply);
    if r.Failure? {
      var message := Extract(doc).error;
      assert r.error.message == "PDF extraction failed:" + (" " + message);
    }
  }

  /** A completed audit carries the given id, user, source, name, category
      and timestamp, the analyser's gaps converted without loss, the report's
      score and grade for those gaps, and the report stage's five remediation
      steps, executive summary and id-derived report URL, unchanged. */
  lemma AuditRecordFields(auditId: string, timestamp: string, doc: PdfDocument, documentName: string,
                          documentType: string, userId: string, source: string,
                          analyzerKeySet: bool, analysisReply: AnalysisReply,
                          reporterKeySet: bool, reportReply: ReportReply)
    requires Extract(doc).Success?
    ensures var r := AuditOutcome(auditId, timestamp, doc, documentName, documentType, userId,
                                  source, analyzerKeySet, analysisReply, reporterKeySet, reportReply);
            var a := r.value;
            && r.Success?
            && a.auditId == auditId && a.userId == userId && a.source == source
            && a.documentName == documentName && a.documentType == documentType
            && a.timestamp == timestamp
            && FromGapDicts(a.gaps) == AnalysisOutcome(documentType, analyzerKeySet, analysisReply).gaps
            && a.score == Score(a.gaps) && a.grade == Grade(a.score)
            && |a.remediation| == 5
            && a.remediation == ReportOf(auditId, a.gaps, documentType, reporterKeySet, reportReply).remediation
            && a.executiveSummary == ReportOf(auditId, a.gaps, documentType, reporterKeySet, reportReply).executiveSummary
            && a.reportPdfUrl == ReportOf(auditId, a.gaps, documentType, reporterKeySet, reportReply).reportPdfUrl
  {
    var gaps := ToGapDicts(AnalysisOutcome(documentType, analyzerKeySet, analysisReply).gaps);
    GapDictsRoundTrip(AnalysisOutcome(documentType, analyzerKeySet, analysisReply).gaps);
    ReportOfShape(auditId, gaps, documentType, reporterKeySet, reportReply);
  }

  /** With neither backend configured, a readable document scores by its
      category's fallback gaps: 74 (C) for SOX 404, 86 (B) for 10-K and 8-K,
      and 89 (B) for any other category. */
  lemma OfflineScores(auditId: string, timestamp: string, doc: PdfDocument, documentName: string,
                      documentType: string, userId: string, source: string,
                      analysisReply: AnalysisReply, reportReply: ReportReply)
    requires Extract(doc).Success?
    ensures var r := AuditOutcome(auditId, timestamp, doc, documentName, documentType, userId,
                                  source, false, analysisReply, false, reportReply);
            && r.Success?
            && (documentType == "SOX 404" ==> r.value.score == 74 && r.value.grade == "C")
            && (documentType in {"10-K", "8-K"} ==> r.value.score == 86 && r.value.grade == "B")
            && (documentType !in {"SOX 404", "10-K", "8-K"} ==> r.value.score == 89 && r.value.grade == "B")
  {
    ToGapDictsPenalty(MockAnalysis(documentType).gaps);
    MockPenalty(documentType);
  }

  /** The penalty of each category's fallback gaps. */
  lemma MockPenalty(documentType: string)
    ensures PenaltyOfGaps(MockAnalysis(documentType).gaps)
            == if documentType == "SOX 404" then 26
               else if documentType in {"10-K", "8-K"} then 14
               else 11
  {
    var gaps := MockAnalysis(documentType).gaps;
    MockSeverities(documentType);
    assert |Severities(gaps)| == |gaps|;
    UnfoldPenalty(gaps);
  }

  /** The penalty of at most three gaps, written out from their severities. */
  lemma UnfoldPenalty(gaps: seq<ComplianceGap>)
    requires |gaps| <= 3
    ensures PenaltyOfGaps(gaps) == (if |gaps| > 0 then Weight(gaps[0].severity) else 0)
                                   + (if |gaps| > 1 then Weight(gaps[1].severity) else 0)
                                   + (if |gaps| > 2 then Weight(gaps[2].severity) else 0)
  {
    if gaps != [] {
      var rest := gaps[1..];
      if rest != [] {
        assert rest[1..] == gaps[2..];
      }
    }
  }

  /** A log appended to one stage at a time lists the stages in order. */
  lemma StageLog(first: Stage, second: Stage, third: Stage, fourth: Stage)
    ensures [first] + [second] + [third] + [fourth] == [first, second, third, fourth]
  {
  }

  /** `run_audit_pipeline`: the stages run one after another, each on what
      the previous one produced; an extraction failure stops the run before
      any other stage. */
  method RunAuditPipeline(uuidHex: string, timestamp: string, doc: PdfDocument, documentName: string,
                          documentType: string, userId: string, source: string,
                          analyzerKeySet: bool, analysisReply: AnalysisReply,
                          reporterKeySet: bool, reportReply: ReportReply)
    returns (result: Result<AuditRecord, PipelineError>, stages: seq<Stage>)
    requires |uuidHex| == 32 && IsLowerHex(uuidHex)
    ensures result == AuditOutcome(AuditId(uuidHex), timestamp, doc, documentName, documentType, userId,
                                   source, analyzerKeySet, analysisReply, reporterKeySet, reportReply)
    ensures Extract(doc).Failure? ==> stages == [ExtractStage]
    ensures Extract(doc).Success? ==>
              && result.Success?
              && stages == [ ExtractStage,
                             ResearchStage(documentType),
                             AnalyseStage(AnalysisRequest(
                               SelectRules(Some(RulesText(ResearchComplianceRules(documentType))), documentType),
                               PagesText(Extract(doc).value.pages))),
                             ReportStage(result.value.auditId, result.value.gaps) ]
  {
    var auditId := AuditId(uuidHex);

    var extracted := ExtractText(doc);
    stages := [ExtractStage];
    if extracted.Failure? {
      return Failure(ValueError("PDF extraction failed: " + extracted.error)), stages;
    }

    var research := ResearchComplianceRules(documentType);
    stages := stages + [ResearchStage(documentType)];
    var rulesText := RulesText(research);

    var request, analysis := AnalyzePdf(extracted.value, documentType, Some(rulesText),
                                        analyzerKeySet, analysisReply);
    stages := stages + [AnalyseStage(request)];
    var gaps := ToGapDicts(analysis.gaps);

    var report := GenerateReport(auditId, documentName, documentType, gaps, reporterKeySet, reportReply);
    stages := stages + [ReportStage(auditId, gaps)];
    StageLog(ExtractStage, ResearchStage(documentType), AnalyseStage(request), ReportStage(auditId, gaps));

    result := Success(Assemble(auditId, timestamp, documentName, documentType, userId, source, gaps, report));
  }
}
