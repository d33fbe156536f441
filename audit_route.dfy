/** The audit upload endpoint: it checks the file name, maps the category
    case-insensitively onto the four canonical names, runs the pipeline,
    turns the pipeline's errors into HTTP errors, stores the record when the
    database is configured, and answers with the record minus its internal
    keys. */
module AuditRoute {
  import opened Wrappers
  import opened Strings
  import opened AuditTypes
  import opened PdfExtractor
  import opened PdfAnalyzer
  import opened ReportGenerator
  import opened Pipeline

  /** `file.filename` is present, non-empty and ends in ".pdf", case-sensitively. */
  predicate IsPdfFilename(filename: Option<string>) {
    filename.Some? && filename.value != "" && EndsWith(filename.value, ".pdf")
  }

  const NotPdf: HttpError := HttpError(400, Plain("File must be a PDF"))

  // ---------------------------------------------------------------------
  // Category normalisation
  // ---------------------------------------------------------------------

  /** The four categories the endpoint accepts, in the map's order. */
  const CanonicalTypes: seq<string> := ["SOX 404", "10-K", "8-K", "Invoice"]

  /** `doc_type_map`: lower-case key to canonical name. */
  function DocTypeMap(key: string): (r: Option<string>)
    ensures r.Some? <==> key in {"sox 404", "10-k", "8-k", "invoice"}
    ensures r.Some? ==> r.value in CanonicalTypes
  {
    if key == "sox 404" then Some("SOX 404")
    else if key == "10-k" then Some("10-K")
    else if key == "8-k" then Some("8-K")
    else if key == "invoice" then Some("Invoice")
    else None
  }

  /** `doc_type_map.get(document_type.lower())`: a canonical name exactly
      when the lower-cased input is one of the four lower-cased names. */
  function NormalizeDocumentType(documentType: string): (r: Option<string>)
    ensures r.Some? <==> Lower(documentType) in {"sox 404", "10-k", "8-k", "invoice"}
    ensures r.Some? ==> r.value in CanonicalTypes && Lower(r.value) == Lower(documentType)
  {
    CanonicalLower();
    DocTypeMap(Lower(documentType))
  }

  /** The lower-case forms of the canonical names. */
  lemma CanonicalLower()
    ensures Lower("SOX 404") == "sox 404"
    ensures Lower("10-K") == "10-k"
    ensures Lower("8-K") == "8-k"
    ensures Lower("Invoice") == "invoice"
  {
    assert Lower("SOX 404") == [LowerChar('S'), LowerChar('O'), LowerChar('X'), ' ', '4', '0', '4'];
    assert Lower("10-K") == ['1', '0', '-', LowerChar('K')];
    assert Lower("8-K") == ['8', '-', LowerChar('K')];
    assert Lower("Invoice") == [LowerChar('I'), 'n', 'v', 'o', 'i', 'c', 'e'];
  }

  /** Every canonical name maps to itself, so normalising twice changes
      nothing; and spelling case never matters. */
  lemma NormalizeIdempotent(documentType: string)
    ensures NormalizeDocumentType(documentType).Some? ==>
              NormalizeDocumentType(NormalizeDocumentType(documentType).value) == NormalizeDocumentType(documentType)
    ensures forall c :: c in CanonicalTypes ==> NormalizeDocumentType(c) == Some(c)
    ensures NormalizeDocumentType(Lower(documentType)) == NormalizeDocumentType(documentType)
  {
    CanonicalLower();
    LowerIdempotent(documentType);
  }

  lemma LowerIdempotent(s: string)
    ensures Lower(Lower(s)) == Lower(s)
  {
    forall i | 0 <= i < |s|
      ensures Lower(Lower(s))[i] == Lower(s)[i]
    {
    }
  }

  /** Each name in single quotes, in order. */
  function Quoted(names: seq<string>): (r: seq<string>)
    ensures |r| == |names|
  {
    if names == [] then [] else ["'" + names[0] + "'"] + Quoted(names[1..])
  }

  /** The 400 message for an unknown category: the canonical names, quoted
      and comma-separated. */
  function InvalidTypeMessage(): string {
    "Invalid document_type. Expected one of: " + Join(", ", Quoted(CanonicalTypes))
  }

  lemma InvalidTypeMessageText()
    ensures InvalidTypeMessage()
            == "Invalid document_type. Expected one of: " + "'SOX 404', '10-K', '8-K', 'Invoice'"
  {
    CanonicalList();
  }

  /** The canonical names as the message lists them. */
  lemma CanonicalList()
    ensures Join(", ", Quoted(CanonicalTypes)) == "'SOX 404', '10-K', '8-K', 'Invoice'"
  {
    QuotedCanonical();
    JoinFour(", ", "'SOX 404'", "'10-K'", "'8-K'", "'Invoice'");
  }

  lemma JoinFour(sep: string, a: string, b: string, c: string, d: string)
    ensures Join(sep, [a, b, c, d]) == a + sep + b + sep + c + sep + d
  {
    var parts := [a, b, c, d];
    assert parts[1..] == [b, c, d];
    assert parts[1..][1..] == [c, d];
    assert parts[1..][1..][1..] == [d];
    assert Join(sep, [c, d]) == c + sep + d;
    assert Join(sep, [b, c, d]) == b + sep + (c + sep + d);
  }

  lemma QuotedCanonical()
    ensures Quoted(CanonicalTypes) == ["'SOX 404'", "'10-K'", "'8-K'", "'Invoice'"]
  {
    var names := CanonicalTypes;
    assert "'" + "Invoice" + "'" == "'Invoice'";
    assert "'" + "8-K" + "'" == "'8-K'";
    assert "'" + "10-K" + "'" == "'10-K'";
    assert "'" + "SOX 404" + "'" == "'SOX 404'";
    assert names[1..][1..][1..] == ["Invoice"];
    assert Quoted(names[1..][1..][1..]) == ["'Invoice'"];
    assert names[1..][1..] == ["8-K", "Invoice"];
    assert Quoted(names[1..][1..]) == ["'8-K'", "'Invoice'"];
    assert Quoted(names[1..]) == ["'10-K'", "'8-K'", "'Invoice'"];
  }

  // ---------------------------------------------------------------------
  // Error mapping
  // ---------------------------------------------------------------------

  /** The error code of a `ValueError` message, by prefix. */
  function ErrorCode(message: string): (code: string)
    ensures code == "NOT_FINANCIAL_DOCUMENT" <==> StartsWith(message, "Invalid document:")
    ensures code == "PDF_EXTRACTION_FAILED" <==>
              !StartsWith(message, "Invalid document:") && StartsWith(message, "PDF extraction failed:")
    ensures code == "VALIDATION_ERROR" <==>
              !StartsWith(message, "Invalid document:") && !StartsWith(message, "PDF extraction failed:")
  {
    if StartsWith(message, "Invalid document:") then "NOT_FINANCIAL_DOCUMENT"
    else if StartsWith(message, "PDF extraction failed:") then "PDF_EXTRACTION_FAILED"
    else "VALIDATION_ERROR"
  }

  const ProcessingFailed: HttpError := HttpError(500, Plain("Audit processing failed"))

  /** The response to what the pipeline returned or raised. */
  function Respond(outcome: Result<AuditRecord, PipelineError>): (r: Result<Audit, HttpError>)
    ensures outcome.Success? <==> r.Success?
    ensures outcome.Success? ==> r.value == WithoutInternalKeys(outcome.value)
    ensures outcome.Failure? && outcome.error.ValueError? ==>
              r.error == HttpError(400, Coded(ErrorCode(outcome.error.message), outcome.error.message))
    ensures outcome.Failure? && outcome.error.InternalError? ==> r.error == ProcessingFailed
  {
    match outcome
    case Success(record) => Success(WithoutInternalKeys(record))
    case Failure(ValueError(message)) => Failure(HttpError(400, Coded(ErrorCode(message), message)))
    case Failure(InternalError(_)) => Failure(ProcessingFailed)
  }

  // ---------------------------------------------------------------------
  // Response filtering
  // ---------------------------------------------------------------------

  /** The record with exactly `user_id` and `source` removed. */
  function WithoutInternalKeys(record: AuditRecord): Audit {
    Audit(record.auditId, record.score, record.grade, record.documentName, record.documentType,
          record.timestamp, record.gaps, record.remediation, record.executiveSummary, record.reportPdfUrl)
  }

  /** The inverse: a response with the internal keys put back. */
  function WithInternalKeys(audit: Audit, userId: string, source: string): AuditRecord {
    AuditRecord(audit.auditId, userId, source, audit.score, audit.grade, audit.documentName,
                audit.documentType, audit.timestamp, audit.gaps, audit.remediation,
                audit.executiveSummary, audit.reportPdfUrl)
  }

  /** Filtering removes the two internal keys and nothing else: putting them
      back restores the record, and removing them again restores the response. */
  lemma FilteringRemovesOnlyInternalKeys(record: AuditRecord, audit: Audit, userId: string, source: string)
    ensures WithInternalKeys(WithoutInternalKeys(record), record.userId, record.source) == record
    ensures WithoutInternalKeys(WithInternalKeys(audit, userId, source)) == audit
  {
  }

  // ---------------------------------------------------------------------
  // POST /run-audit
  // ---------------------------------------------------------------------

  /** The response and whether the record reached the database. */
  datatype RouteOutcome = RouteOutcome(response: Result<Audit, HttpError>, stored: bool)

  /** The endpoint around a given pipeline, a function of the canonical
      category. */
  function Route(filename: Option<string>, documentType: string,
                 pipeline: string -> Result<AuditRecord, PipelineError>,
                 dbConfigured: bool, saveRaised: bool): (r: RouteOutcome)
    ensures !IsPdfFilename(filename) ==> r == RouteOutcome(Failure(NotPdf), false)
    ensures IsPdfFilename(filename) && NormalizeDocumentType(documentType).None? ==>
              r == RouteOutcome(Failure(HttpError(400, Plain(InvalidTypeMessage()))), false)
    ensures IsPdfFilename(filename) && NormalizeDocumentType(documentType).Some? ==>
              r.response == Respond(pipeline(NormalizeDocumentType(documentType).value))
    ensures r.stored <==> r.response.Success? && dbConfigured && !saveRaised
  {
    if !IsPdfFilename(filename) then RouteOutcome(Failure(NotPdf), false)
    else match NormalizeDocumentType(documentType)
      case None => RouteOutcome(Failure(HttpError(400, Plain(InvalidTypeMessage()))), false)
      case Some(canonical) =>
        var response := Respond(pipeline(canonical));
        RouteOutcome(response, response.Success? && dbConfigured && !saveRaised)
  }

  /** `run_audit` with the pipeline run on the upload, from the web. */
  function RunAudit(filename: Option<string>, documentType: string, userId: string,
                    uuidHex: string, timestamp: string, doc: PdfDocument,
                    analyzerKeySet: bool, analysisReply: AnalysisReply,
                    reporterKeySet: bool, reportReply: ReportReply,
                    dbConfigured: bool, saveRaised: bool): RouteOutcome
    requires |uuidHex| == 32 && IsLowerHex(uuidHex)
  {
    var name := filename.GetOr("");
    Route(filename, documentType,
          canonical => AuditOutcome(AuditId(uuidHex), timestamp, doc, name, canonical, userId, "web",
                                    analyzerKeySet, analysisReply, reporterKeySet, reportReply),
          dbConfigured, saveRaised)
  }

  /** Storing is best-effort: whether the database is configured and whether
      the save raised never changes the response. */
  lemma ResponseIndependentOfSave(filename: Option<string>, documentType: string,
                                  pipeline: string -> Result<AuditRecord, PipelineError>,
                                  d1: bool, s1: bool, d2: bool, s2: bool)
    ensures Route(filename, documentType, pipeline, d1, s1).response
            == Route(filename, documentType, pipeline, d2, s2).response
  {
  }

  /** Nothing the pipeline raises starts with "Invalid document:", so the
      endpoint never answers NOT_FINANCIAL_DOCUMENT; with report rendering
      taken not to raise, the only error codes it gives are for failed
      extraction. */
  lemma NotFinancialUnreachable(filename: Option<string>, documentType: string, userId: string,
                                uuidHex: string, timestamp: string, doc: PdfDocument,
                                analyzerKeySet: bool, analysisReply: AnalysisReply,
                                reporterKeySet: bool, reportReply: ReportReply,
                                dbConfigured: bool, saveRaised: bool)
    requires |uuidHex| == 32 && IsLowerHex(uuidHex)
    ensures var r := RunAudit(filename, documentType, userId, uuidHex, timestamp, doc, analyzerKeySet,
                              analysisReply, reporterKeySet, reportReply, dbConfigured, saveRaised).response;
            r.Failure? && r.error.detail.Coded? ==> r.error.detail.errorCode == "PDF_EXTRACTION_FAILED"
  {
    var canonical := NormalizeDocumentType(documentType);
    if IsPdfFilename(filename) && canonical.Some? {
      AuditOutcomeFails(AuditId(uuidHex), timestamp, doc, filename.value, canonical.value, userId, "web",
                        analyzerKeySet, analysisReply, reporterKeySet, reportReply);
      var outcome := AuditOutcome(AuditId(uuidHex), timestamp, doc, filename.value, canonical.value, userId, "web",
                                  analyzerKeySet, analysisReply, reporterKeySet, reportReply);
      if outcome.Failure? {
        PrefixesDiffer(outcome.error.message);
      }
    }
  }

  /** A message with the extraction prefix does not have the document prefix. */
  lemma PrefixesDiffer(message: string)
    requires StartsWith(message, "PDF extraction failed:")
    ensures !StartsWith(message, "Invalid document:")
  {
    assert message[0] == 'P';
  }

  /** An accepted upload is answered with the pipeline's record for the
      canonical category, minus the internal keys; its name is the file
      name and its category the canonical one. */
  lemma AcceptedUpload(filename: Option<string>, documentType: string, userId: string,
                       uuidHex: string, timestamp: string, doc: PdfDocument,
                       analyzerKeySet: bool, analysisReply: AnalysisReply,
                       reporterKeySet: bool, reportReply: ReportReply,
                       dbConfigured: bool, saveRaised: bool)
    requires |uuidHex| == 32 && IsLowerHex(uuidHex)
    requires IsPdfFilename(filename) && Lower(documentType) in {"sox 404", "10-k", "8-k", "invoice"}
    requires doc.Readable? && doc.pageTexts != []
    ensures var r := RunAudit(filename, documentType, userId, uuidHex, timestamp, doc, analyzerKeySet,
                              analysisReply, reporterKeySet, reportReply, dbConfigured, saveRaised).response;
            && r.Success?
            && r.value.auditId == AuditId(uuidHex)
            && r.value.documentName == filename.value
            && r.value.documentType == NormalizeDocumentType(documentType).value
            && r.value.documentType in CanonicalTypes
            && r.value.reportPdfUrl == ReportUrl(AuditId(uuidHex))
  {
    AuditRecordFields(AuditId(uuidHex), timestamp, doc, filename.value, NormalizeDocumentType(documentType).value,
                      userId, "web", analyzerKeySet, analysisReply, reporterKeySet, reportReply);
  }

  /** With the rule hand-off as written, every upload that passes the checks
      and extracts is answered with a 500. */
  lemma AsWrittenUploadsFail(filename: Option<string>, documentType: string, userId: string,
                             uuidHex: string, timestamp: string, doc: PdfDocument,
                             analyzerKeySet: bool, analysisReply: AnalysisReply,
                             reporterKeySet: bool, reportReply: ReportReply,
                             dbConfigured: bool, saveRaised: bool)
    requires |uuidHex| == 32 && IsLowerHex(uuidHex)
    requires IsPdfFilename(filename) && Lower(documentType) in {"sox 404", "10-k", "8-k", "invoice"}
    requires doc.Readable? && doc.pageTexts != []
    ensures Route(filename, documentType,
                  canonical => AuditOutcomeAsWritten(AuditId(uuidHex), timestamp, doc, filename.value, canonical,
                                                     userId, "web", analyzerKeySet, analysisReply,
                                                     reporterKeySet, reportReply),
                  dbConfigured, saveRaised)
            == RouteOutcome(Failure(ProcessingFailed), false)
  {
  }
}
