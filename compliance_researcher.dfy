/** The rule provider: a fixed table from document category to a rule set,
    with an empty rule set for every category it does not list. */
module ComplianceResearcher {
  import opened Wrappers

  datatype ComplianceRule = ComplianceRule(
    ruleId: string,
    description: string,
    severity: string,
    regulation: string)

  datatype ComplianceRulesSchema = ComplianceRulesSchema(
    rules: seq<ComplianceRule>,
    requiredSections: seq<string>,
    materialityThreshold: string)

  /** The four severities a rule may carry. */
  predicate IsRuleSeverity(s: string) {
    s == "critical" || s == "high" || s == "medium" || s == "low"
  }

  const SoxRules: ComplianceRulesSchema := ComplianceRulesSchema(
    [ ComplianceRule("SOX-ITGC-1", "IT General Controls testing must be documented", "critical", "SOX 404 Section A"),
      ComplianceRule("SOX-ACCESS-1", "Access controls and segregation of duties required", "critical", "SOX 404 Section B"),
      ComplianceRule("SOX-MGMT-1", "Management letter findings must be addressed", "high", "SOX 404 Management Requirements"),
      ComplianceRule("SOX-RISK-1", "Risk assessment process must be documented with identified risks", "high", "SOX 404 Risk Assessment"),
      ComplianceRule("SOX-MONITOR-1", "Ongoing monitoring activities and deficiency tracking required", "medium", "SOX 404 Monitoring") ],
    ["IT Controls", "Access Management", "Change Management", "Risk Assessment", "Monitoring Activities"],
    "$5M for financial statement impact")

  const TenKRules: ComplianceRulesSchema := ComplianceRulesSchema(
    [ ComplianceRule("SEC-1A", "Risk factors section (Item 1A) is mandatory", "critical", "SEC Regulation S-K Item 1A"),
      ComplianceRule("SEC-7", "Management's Discussion and Analysis (MD&A) required", "critical", "SEC Regulation S-K Item 7"),
      ComplianceRule("SEC-9A", "Controls and Procedures disclosure required", "high", "SEC Regulation S-K Item 9A"),
      ComplianceRule("SEC-8", "Financial statements and supplementary data must be audited", "critical", "SEC Regulation S-K Item 8"),
      ComplianceRule("SEC-XBRL", "XBRL/iXBRL tagging required for financial statements", "medium", "SEC Rule 405 of Regulation S-T") ],
    ["Risk Factors", "MD&A", "Financial Statements", "Controls & Procedures", "Auditor's Report"],
    "5% of net income or $100K, whichever is lower")

  const InvoiceRules: ComplianceRulesSchema := ComplianceRulesSchema(
    [ ComplianceRule("INV-MATH-1", "Line item totals must equal invoice total", "high", "GAAP Invoice Standards"),
      ComplianceRule("INV-SIG-1", "Authorized signature required for invoices >$10K", "critical", "Internal Controls - Invoice Approval"),
      ComplianceRule("INV-TAX-1", "Tax calculations must comply with jurisdiction rates", "medium", "State Tax Compliance"),
      ComplianceRule("INV-DUP-1", "Duplicate invoice numbers must be flagged", "high", "Internal Controls - Duplicate Detection"),
      ComplianceRule("INV-PO-1", "Purchase order reference required for invoices >$5K", "medium", "Procurement Controls") ],
    ["Line Items", "Totals", "Tax", "Payment Terms", "Vendor Info"],
    "$1,000 for math discrepancies")

  /** The schema returned for a category the table does not list. */
  const UnknownCategoryRules: ComplianceRulesSchema := ComplianceRulesSchema([], [], "Not specified")

  /** `_RULES_BY_TYPE.get(document_type)`. */
  function RulesByType(documentType: string): (r: Option<ComplianceRulesSchema>)
    ensures r.Some? <==> documentType in {"SOX 404", "10-K", "Invoice"}
  {
    if documentType == "SOX 404" then Some(SoxRules)
    else if documentType == "10-K" then Some(TenKRules)
    else if documentType == "Invoice" then Some(InvoiceRules)
    else None
  }

  /** `research_compliance_rules`: the table entry, or the empty schema. */
  function ResearchComplianceRules(documentType: string): (r: ComplianceRulesSchema)
    ensures RulesByType(documentType).Some? ==> r == RulesByType(documentType).value
    ensures RulesByType(documentType).None? ==> r.rules == [] && r.requiredSections == []
                                                && r.materialityThreshold == "Not specified"
  {
    match RulesByType(documentType)
    case Some(schema) => schema
    case None => UnknownCategoryRules
  }

  /** The rule set's well-formedness: five rules with distinct ids and
      allowed severities, and five required sections. */
  predicate WellFormedTable(schema: ComplianceRulesSchema) {
    && |schema.rules| == 5
    && |schema.requiredSections| == 5
    && (forall i :: 0 <= i < |schema.rules| ==> IsRuleSeverity(schema.rules[i].severity))
    && (forall i, j :: 0 <= i < j < |schema.rules| ==> schema.rules[i].ruleId != schema.rules[j].ruleId)
  }

  /** Every listed category yields a well-formed table; every other one,
      "8-K" included, yields nothing to check against. */
  lemma ResearchTables(documentType: string)
    ensures documentType in {"SOX 404", "10-K", "Invoice"} ==> WellFormedTable(ResearchComplianceRules(documentType))
    ensures documentType !in {"SOX 404", "10-K", "Invoice"} ==> ResearchComplianceRules(documentType) == UnknownCategoryRules
  {
  }

  lemma EightKHasNoRules()
    ensures ResearchComplianceRules("8-K").rules == []
    ensures ResearchComplianceRules("8-K").materialityThreshold == "Not specified"
  {
  }
}
