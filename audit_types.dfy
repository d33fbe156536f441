/** Record shapes shared by the pipeline, the HTTP routes, the mock history
    and the chat embeds. Python dictionaries with a fixed key set become
    datatypes with one field per key. */
module AuditTypes {

  /** A gap location as serialised by the pipeline: `{"page", "quote", "context"}`. */
  datatype LocationDict = LocationDict(page: int, quote: string, context: string)

  /** A gap as a dictionary: the form the report stage reads, the audit
      record stores and the embeds display. */
  datatype GapDict = GapDict(
    severity: string,
    title: string,
    description: string,
    regulation: string,
    locations: seq<LocationDict>)

  /** What `run_audit_pipeline` returns, including the internal keys
      `user_id` and `source`. */
  datatype AuditRecord = AuditRecord(
    auditId: string,
    userId: string,
    source: string,
    score: int,
    grade: string,
    documentName: string,
    documentType: string,
    timestamp: string,
    gaps: seq<GapDict>,
    remediation: seq<string>,
    executiveSummary: string,
    reportPdfUrl: string)

  /** An audit as clients see it: the audit route's response and the entries
      of the mock history table have exactly these keys. */
  datatype Audit = Audit(
    auditId: string,
    score: int,
    grade: string,
    documentName: string,
    documentType: string,
    timestamp: string,
    gaps: seq<GapDict>,
    remediation: seq<string>,
    executiveSummary: string,
    reportPdfUrl: string)

  /** The `detail` of an `HTTPException`: a plain message or an error-code object. */
  datatype ErrorDetail = Plain(message: string) | Coded(errorCode: string, message: string)

  datatype HttpError = HttpError(status: int, detail: ErrorDetail)
}
