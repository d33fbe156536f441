/** The history endpoints: a user's audit list and one audit's details,
    read from the database when it is configured and from a fixed table of
    two sample audits otherwise, or when the database read fails or finds
    nothing. The environment variables and the database replies are inputs. */
module HistoryRoute {
  import opened Wrappers
  import opened AuditTypes
  import opened ReportGenerator

  /** `bool(os.getenv(URL) and os.getenv(KEY))`: both variables set and
      non-empty. */
  function IsDbConfigured(url: Option<string>, serviceKey: Option<string>): (b: bool)
    ensures b <==> url.Some? && url.value != "" && serviceKey.Some? && serviceKey.value != ""
  {
    match (url, serviceKey)
    case (Some(u), Some(k)) => u != "" && k != ""
    case _ => false
  }

  // ---------------------------------------------------------------------
  // The sample audits
  // ---------------------------------------------------------------------

  const SoxSampleGaps: seq<GapDict> := [
    GapDict("critical", "Missing ITGC Documentation",
      "No evidence of IT General Controls documentation for financial reporting systems.",
      "SOX Section 404(a) \U{2014} COSO Framework CC5.1",
      [LocationDict(3, "The company maintains financial reporting systems managed by the IT department",
                    "Section 2.1 - Internal Controls Overview")]),
    GapDict("high", "Inadequate Segregation of Duties",
      "Same personnel responsible for transaction initiation and approval.",
      "SOX Section 404(b) \U{2014} PCAOB AS 2201.22",
      [LocationDict(5, "Transaction processing is handled by the accounting team",
                    "Section 3.2 - Transaction Controls"),
       LocationDict(7, "Approvals are conducted by department managers",
                    "Section 4.1 - Approval Workflow")]),
    GapDict("medium", "No Quarterly Access Review",
      "Access logs for financial systems not reviewed on a quarterly basis.",
      "SOX Section 404 \U{2014} COSO CC6.1",
      [LocationDict(8, "System access is reviewed on an annual basis",
                    "Section 5.1 - Access Management")])
  ]

  const SoxSampleRemediation: seq<string> := [
    "Establish and document ITGC controls for all financial reporting systems within 30 days.",
    "Implement role-based access control to enforce segregation of duties.",
    "Schedule quarterly access log reviews with sign-off from compliance officer.",
    "Deploy automated monitoring for privileged account usage.",
    "Conduct a full internal control gap assessment before next reporting period."
  ]

  const SoxSampleSummary: string :=
    "The audit identified three compliance gaps in the uploaded SOX 404 document. A critical deficiency was found in ITGC documentation, with additional high-severity issues in segregation of duties and medium-severity gaps in access review procedures. Immediate remediation is recommended for the critical finding. Overall compliance posture requires significant improvement before the next reporting cycle."

  const FilingSampleGaps: seq<GapDict> := [
    GapDict("high", "Risk Factor Disclosure Gap",
      "Emerging cybersecurity risks not adequately disclosed in risk factors section.",
      "SEC Regulation S-K Item 105",
      [LocationDict(12, "The company faces various operational risks", "Item 1A - Risk Factors")]),
    GapDict("medium", "MD&A Forward-Looking Statements",
      "Forward-looking statements lack sufficient cautionary language.",
      "SEC Regulation S-K Item 303",
      [LocationDict(25, "We expect continued growth in the coming fiscal year", "Item 7 - MD&A")]),
    GapDict("medium", "Executive Compensation Disclosure",
      "Performance metrics for executive bonuses not fully disclosed.",
      "SEC Regulation S-K Item 402",
      [LocationDict(45, "Executive compensation is tied to company performance",
                    "Item 11 - Executive Compensation")])
  ]

  const FilingSampleRemediation: seq<string> := [
    "Update risk factors to include detailed cybersecurity risk disclosures.",
    "Add safe harbor language to all forward-looking statements in MD&A.",
    "Disclose specific performance metrics and thresholds for executive compensation.",
    "Conduct a full disclosure controls assessment before next filing.",
    "Engage external counsel to review disclosure adequacy."
  ]

  const FilingSampleSummary: string :=
    "The 10-K filing audit identified three compliance gaps. A high-severity issue was found in risk factor disclosures regarding cybersecurity. Medium-severity gaps exist in forward-looking statement cautionary language and executive compensation disclosure. Overall compliance posture is good but requires targeted improvements before the next annual filing."

  /** A sample audit with the given score and grade. */
  function SoxSample(score: int, grade: string): Audit {
    Audit("aud_abc123", score, grade, "sox_404_report.pdf", "SOX 404", "2026-02-07T14:32:00Z",
          SoxSampleGaps, SoxSampleRemediation, SoxSampleSummary, "/api/files/report_aud_abc123.pdf")
  }

  function FilingSample(score: int, grade: string): Audit {
    Audit("aud_def456", score, grade, "10k_q3_2025.pdf", "10-K", "2026-02-07T13:10:00Z",
          FilingSampleGaps, FilingSampleRemediation, FilingSampleSummary, "/api/files/report_aud_def456.pdf")
  }

  /** The sample table as written: 62 labelled "C" and 78 labelled "B". */
  const MockAuditsAsWritten: seq<Audit> := [SoxSample(62, "C"), FilingSample(78, "B")]

  /** The sample table as written disagrees with the report stage on both
      entries: the grade bands give 62 a "D" and 78 a "C", and the entries'
      own gaps score 74 and 86. */
  lemma MockAuditsAsWrittenInconsistent()
    ensures Grade(MockAuditsAsWritten[0].score) == "D" != MockAuditsAsWritten[0].grade
    ensures Grade(MockAuditsAsWritten[1].score) == "C" != MockAuditsAsWritten[1].grade
    ensures Score(MockAuditsAsWritten[0].gaps) == 74 != MockAuditsAsWritten[0].score
    ensures Score(MockAuditsAsWritten[1].gaps) == 86 != MockAuditsAsWritten[1].score
  {
    SampleScores();
  }

  /** The sample table with each score computed from the entry's gaps: the
      grades the table gives then agree with the grade bands. */
  const MockAudits: seq<Audit> := [SoxSample(74, "C"), FilingSample(86, "B")]

  lemma SampleScores()
    ensures Score(SoxSampleGaps) == 74
    ensures Score(FilingSampleGaps) == 86
  {
    assert SoxSampleGaps[1..][1..][1..] == [];
    assert Penalty(SoxSampleGaps[1..][1..]) == 3;
    assert Penalty(SoxSampleGaps[1..]) == 11;
    assert FilingSampleGaps[1..][1..][1..] == [];
    assert Penalty(FilingSampleGaps[1..][1..]) == 3;
    assert Penalty(FilingSampleGaps[1..]) == 6;
  }

  /** Every corrected sample audit is one the pipeline could have produced:
      its score is its gaps' score, its grade that score's grade, it has
      five remediation steps and its URL is derived from its id; the ids are
      distinct. */
  lemma MockAuditsConsistent()
    ensures forall i :: 0 <= i < |MockAudits| ==>
              && MockAudits[i].score == Score(MockAudits[i].gaps)
              && MockAudits[i].grade == Grade(MockAudits[i].score)
              && |MockAudits[i].remediation| == 5
              && MockAudits[i].reportPdfUrl == ReportUrl(MockAudits[i].auditId)
    ensures forall i, j :: 0 <= i < j < |MockAudits| ==> MockAudits[i].auditId != MockAudits[j].auditId
  {
    SampleScores();
  }

  // ---------------------------------------------------------------------
  // GET /history
  // ---------------------------------------------------------------------

  /** A history entry: the six summary keys of an audit. */
  datatype HistoryEntry = HistoryEntry(
    auditId: string,
    documentName: string,
    documentType: string,
    score: int,
    grade: string,
    timestamp: string)

  function Summary(a: Audit): HistoryEntry {
    HistoryEntry(a.auditId, a.documentName, a.documentType, a.score, a.grade, a.timestamp)
  }

  /** The mock-mode list: one summary per sample audit, in table order. The
      table is a parameter: the program serves `MockAuditsAsWritten`, and the
      same endpoints over the corrected `MockAudits` are stated beside it. */
  function MockHistory(mocks: seq<Audit>): (entries: seq<HistoryEntry>)
    ensures |entries| == |mocks|
    ensures forall i :: 0 <= i < |entries| ==>
              && entries[i].auditId == mocks[i].auditId
              && entries[i].documentName == mocks[i].documentName
              && entries[i].documentType == mocks[i].documentType
              && entries[i].score == mocks[i].score
              && entries[i].grade == mocks[i].grade
              && entries[i].timestamp == mocks[i].timestamp
  {
    seq(|mocks|, i requires 0 <= i < |mocks| => Summary(mocks[i]))
  }

  /** What the database read of a user's history did. */
  datatype HistoryReply = HistoryRaised | HistoryReturned(entries: seq<HistoryEntry>)

  /** `get_history`: the database's list when it is configured and the read
      succeeds, otherwise the sample list whoever the user is. */
  function GetHistory(userId: string, dbConfigured: bool, reply: HistoryReply, mocks: seq<Audit>)
    : (entries: seq<HistoryEntry>)
    ensures dbConfigured && reply.HistoryReturned? ==> entries == reply.entries
    ensures !(dbConfigured && reply.HistoryReturned?) ==> entries == MockHistory(mocks)
  {
    if dbConfigured && reply.HistoryReturned? then reply.entries else MockHistory(mocks)
  }

  /** In mock mode the list does not depend on the user and has one entry
      per sample. */
  lemma MockHistoryIgnoresUser(u1: string, u2: string, dbConfigured: bool, reply: HistoryReply,
                               mocks: seq<Audit>)
    requires !(dbConfigured && reply.HistoryReturned?)
    ensures GetHistory(u1, dbConfigured, reply, mocks) == GetHistory(u2, dbConfigured, reply, mocks)
    ensures |GetHistory(u1, dbConfigured, reply, mocks)| == |mocks|
  {
  }

  // ---------------------------------------------------------------------
  // GET /audit/{audit_id}
  // ---------------------------------------------------------------------

  /** No two samples share an id, as the keys of a dictionary. */
  predicate DistinctIds(mocks: seq<Audit>) {
    forall i, j :: 0 <= i < j < |mocks| ==> mocks[i].auditId != mocks[j].auditId
  }

  /** `audit_id in MOCK_AUDITS` and `MOCK_AUDITS[audit_id]`: the sample
      carrying that id, the first one in table order. */
  function MockLookup(mocks: seq<Audit>, auditId: string): (r: Option<Audit>)
    ensures r.Some? <==> exists i :: 0 <= i < |mocks| && mocks[i].auditId == auditId
    ensures r.Some? ==> exists i :: 0 <= i < |mocks| && mocks[i] == r.value
                          && r.value.auditId == auditId
                          && forall j :: 0 <= j < i ==> mocks[j].auditId != auditId
  {
    if mocks == [] then None
    else if mocks[0].auditId == auditId then Some(mocks[0])
    else
      var r := MockLookup(mocks[1..], auditId);
      assert r.Some? ==> exists i :: 1 <= i < |mocks| && mocks[i] == r.value
                          && forall j :: 0 <= j < i ==> mocks[j].auditId != auditId by {
        if r.Some? {
          var i :| 0 <= i < |mocks[1..]| && mocks[1..][i] == r.value
                   && forall j :: 0 <= j < i ==> mocks[1..][j].auditId != auditId;
          assert mocks[i + 1] == r.value;
          forall j | 0 <= j < i + 1 ensures mocks[j].auditId != auditId {
            if j > 0 { assert mocks[j] == mocks[1..][j - 1]; }
          }
        }
      }
      r
  }

  /** With distinct ids, the lookup of a sample's id finds that sample. */
  lemma {:induction false} MockLookupFinds(mocks: seq<Audit>, i: nat)
    requires DistinctIds(mocks) && i < |mocks|
    ensures MockLookup(mocks, mocks[i].auditId) == Some(mocks[i])
  {
    var r := MockLookup(mocks, mocks[i].auditId);
    var k :| 0 <= k < |mocks| && mocks[k] == r.value && r.value.auditId == mocks[i].auditId
             && forall j :: 0 <= j < k ==> mocks[j].auditId != mocks[i].auditId;
    if k != i {
      assert false;
    }
  }

  /** What the database read of one audit did: raised, or returned a record
      or nothing. */
  datatype AuditReply = AuditRaised | AuditReturned(found: Option<Audit>)

  const AuditNotFound: HttpError := HttpError(404, Plain("Audit not found"))

  /** `get_audit`: the database's record when it finds one; otherwise (not
      configured, not found, or the read raised) the sample record with that
      id, unchanged, or 404. */
  function GetAudit(auditId: string, dbConfigured: bool, reply: AuditReply, mocks: seq<Audit>)
    : (r: Result<Audit, HttpError>)
    ensures dbConfigured && reply.AuditReturned? && reply.found.Some? ==> r == Success(reply.found.value)
    ensures !(dbConfigured && reply.AuditReturned? && reply.found.Some?) ==>
              (r.Failure? <==> forall i :: 0 <= i < |mocks| ==> mocks[i].auditId != auditId)
              && (r.Failure? ==> r.error == AuditNotFound)
              && (r.Success? ==> r.value in mocks && r.value.auditId == auditId)
  {
    if dbConfigured && reply.AuditReturned? && reply.found.Some? then Success(reply.found.value)
    else match MockLookup(mocks, auditId)
      case Some(audit) => Success(audit)
      case None => Failure(AuditNotFound)
  }

  /** A database miss and a database error fall through alike. */
  lemma MissAndErrorAgree(auditId: string, mocks: seq<Audit>)
    ensures GetAudit(auditId, true, AuditReturned(None), mocks) == GetAudit(auditId, true, AuditRaised, mocks)
    ensures GetAudit(auditId, true, AuditRaised, mocks) == GetAudit(auditId, false, AuditRaised, mocks)
  {
  }

  /** Every entry of the mock history leads to its full record. */
  lemma MockHistoryResolves(mocks: seq<Audit>, i: nat)
    requires DistinctIds(mocks) && i < |MockHistory(mocks)|
    ensures GetAudit(MockHistory(mocks)[i].auditId, false, AuditRaised, mocks) == Success(mocks[i])
  {
    MockLookupFinds(mocks, i);
  }

  /** What the program serves without a database: the table as written, so
      "aud_abc123" comes back with 62 and "C" and "aud_def456" with 78 and
      "B", in the list and in the detail alike, although the grade bands
      give those scores "D" and "C". */
  lemma ServedSamplesAsWritten(userId: string)
    ensures DistinctIds(MockAuditsAsWritten)
    ensures var h := GetHistory(userId, false, HistoryRaised, MockAuditsAsWritten);
            |h| == 2 && h[0].score == 62 && h[0].grade == "C" && h[1].score == 78 && h[1].grade == "B"
    ensures GetAudit("aud_abc123", false, AuditRaised, MockAuditsAsWritten) == Success(MockAuditsAsWritten[0])
    ensures GetAudit("aud_def456", false, AuditRaised, MockAuditsAsWritten) == Success(MockAuditsAsWritten[1])
    ensures Grade(GetHistory(userId, false, HistoryRaised, MockAuditsAsWritten)[0].score) == "D"
  {
    MockLookupFinds(MockAuditsAsWritten, 0);
    MockLookupFinds(MockAuditsAsWritten, 1);
  }

  /** The same endpoints over the corrected table serve entries whose grade
      is their score's grade. */
  lemma ServedSamplesCorrected(userId: string)
    ensures DistinctIds(MockAudits)
    ensures var h := GetHistory(userId, false, HistoryRaised, MockAudits);
            |h| == 2 && forall i :: 0 <= i < 2 ==> h[i].grade == Grade(h[i].score)
    ensures GetAudit("aud_abc123", false, AuditRaised, MockAudits) == Success(MockAudits[0])
    ensures GetAudit("aud_def456", false, AuditRaised, MockAudits) == Success(MockAudits[1])
  {
    MockAuditsConsistent();
    MockLookupFinds(MockAudits, 0);
    MockLookupFinds(MockAudits, 1);
  }
}
