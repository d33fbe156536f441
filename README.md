# Compliance audit backend: a Dafny model

This project models the deterministic core of a compliance-audit service and its Discord
front end. A user uploads a financial PDF (a SOX 404 report, a 10-K or 8-K filing, an
invoice). The server then runs four stages in order:

1. It extracts the text page by page.
2. It looks up the compliance rules for the document's category.
3. It asks a language model for the compliance gaps, falling back to fixed sample gaps.
4. It scores the gaps, grades the score and writes an executive summary and five
   remediation steps, again with a deterministic fallback.

The HTTP routes validate the upload, map pipeline errors to error codes, serve the rendered
report and list past audits. The Discord bot turns audit records into embeds.

The model keeps the source's shape, module by module:

- Pure code (score, grade, the rule tables, the classifier's verdict, the routes) becomes
  functions and lemmas.
- Code that works step by step becomes methods whose loops carry invariants. These methods
  are the extractor's page loop, the page lookup and search, the analyser's page-text
  accumulation, the fallback report's loops, the report dictionary and the pipeline's stage
  sequence. Each method is proved equal to a specification function, and the promised
  properties are lemmas about that function.
- The Discord embed is a class (`EmbedBuilder.Embed`) whose fields the builders update
  through `AddField`, `SetFooter` and `SetDescription`.

Everything the code reads from outside is an input:

- what the language model replied (a datatype per call site: raised, returned nothing,
  returned structured output, returned text that decodes or does not);
- whether an API key or the database variables are set (a `bool`);
- the PDF's page texts, the uuid hex digits, the timestamp;
- the set of files in the reports directory;
- the database's replies;
- the date formatter (a `string -> Option<string>`).

Shared modules:

- `Wrappers` holds `Option` and `Result`.
- `Strings` holds the Python string operations the code uses: ASCII `lower`, `strip`,
  `startswith`, `in`, `find`, `join`, slicing with negative bounds, and integer formatting.
- `AuditTypes` holds the gap and audit dictionaries passed between the server and the bot.

## Model

| member | source | states |
|---|---|---|
| ReportGenerator.Score | server/agents/report_generator.py:32-43 | the score is always within 0..100 |
| ReportGenerator.CountSeverity | server/agents/report_generator.py:212-214 | a severity count never exceeds the number of gaps |
| ReportGenerator.PenaltyBounds | server/agents/report_generator.py:40-42 | each gap costs between 3 and 15 points |
| ReportGenerator.PenaltyAppend | server/agents/report_generator.py:40-42 | the penalty of a concatenation is the sum of the penalties |
| ReportGenerator.PenaltyByCounts | server/agents/report_generator.py:39-42 | the penalty is 15 per critical gap plus 8 per high gap plus 3 per other gap, unknown severities included |
| ReportGenerator.ScoreByCounts | server/agents/report_generator.py:39-43 | the score equals max(0, 100 − (15·critical + 8·high + 3·other)) |
| ReportGenerator.PenaltyRemove | server/agents/report_generator.py:40-42 | taking any one gap out lowers the penalty by exactly that gap's weight |
| ReportGenerator.PenaltyPermutation | server/agents/report_generator.py:40-42 | two gap lists with the same multiset have the same penalty |
| ReportGenerator.ScorePermutation | server/agents/report_generator.py:40-43 | the score does not depend on the order of the gaps |
| ReportGenerator.ScoreAppend | server/agents/report_generator.py:40-43 | adding gaps never raises the score; a score of at least 3 per added gap drops by at least 3 per added gap |
| ReportGenerator.Grade | server/agents/report_generator.py:46-57 | each letter holds exactly on its band: A ≥ 90, B 80–89, C 70–79, D 60–69, F below 60 |
| ReportGenerator.GradeMonotone | server/agents/report_generator.py:46-57 | a higher score never gets a worse letter |
| ReportGenerator.EmptyAuditScoresA | server/agents/report_generator.py:43-49 | no gaps scores 100 and grades A |
| ReportGenerator.EnsureFive | server/agents/report_generator.py:193-207 | exactly five items: the first five, or the input followed by the first defaults in order |
| ReportGenerator.EnsureFiveIdempotent | server/agents/report_generator.py:193-207 | normalising twice equals normalising once |
| ReportGenerator.Timeframe | server/agents/report_generator.py:253-255 | "within 14 days" iff critical, "within 30 days" iff high, "within 60 days" for every other severity |
| ReportGenerator.RemediationSteps | server/agents/report_generator.py:249-257 | one step per gap, in order, each built from that gap |
| ReportGenerator.FirstWithSeverity | server/agents/report_generator.py:231-232 | the index of the first gap with the severity; no earlier gap has it |
| ReportGenerator.FallbackReport | server/agents/report_generator.py:210-264 | the fallback report method yields the summary and five-step remediation of its specification |
| ReportGenerator.FallbackSummaryText | server/agents/report_generator.py:212-246 | the summary, accumulated part by part, equals the specified text (severity phrase, counts, score, grade, closing by worst severity) |
| ReportGenerator.OpeningLayout | server/agents/report_generator.py:226-230 | the opening starts with the category and gap count and ends with the score and grade sentence |
| ReportGenerator.FallbackSummaryMentions | server/agents/report_generator.py:226-230 | the fallback summary opens with the category and number of gaps and names the score and the grade |
| ReportGenerator.FallbackSummaryClosesOnCritical | server/agents/report_generator.py:231-236 | with a critical gap, the summary ends on the lowercased title of the first critical gap and the immediate-remediation sentence |
| ReportGenerator.FallbackRemediationSteps | server/agents/report_generator.py:248-262 | the remediation loop over the first five gaps yields the specified list |
| ReportGenerator.FallbackRemediation | server/agents/report_generator.py:248-262 | the fallback list has five steps; step i addresses gap i for each of the first five gaps, and defaults fill the rest |
| ReportGenerator.SeverityPartsEmpty | server/agents/report_generator.py:217-224 | the severity phrase is "various" exactly when no gap is critical, high or medium |
| ReportGenerator.CountPositive | server/agents/report_generator.py:212-214 | a list holding a gap of some severity counts that severity at least once |
| ReportGenerator.LiveBodyAccepted | server/agents/report_generator.py:162-180 | the live result is used iff the key is set, the call returned, and both summary and remediation are non-empty; then the summary is kept and the list normalised to five; empty text output is never accepted |
| ReportGenerator.ReportOf | server/agents/report_generator.py:62-190 | every report has the score of its gaps, that score's grade, five remediation steps and the id-derived URL |
| ReportGenerator.ReportOfShape | server/agents/report_generator.py:62-190 | every path: score and grade from the gaps, five steps, URL "/api/files/report_" + id + ".pdf"; an accepted live body becomes the report's remediation and summary; with no key or a rejected live body, the fallback body with the same score and grade |
| ReportGenerator.GenerateReport | server/agents/report_generator.py:62-190 | the report dictionary filled in place equals the specified report for every key setting and reply |
| ReportGenerator.ThreeGapExample | server/agents/report_generator.py:39-57 | one critical, one high and one medium gap score 74, grade C, and the first step reads "Address "title" within 14 days by reviewing compliance with regulation." |
| ReportGenerator.NoGapFallback | server/agents/report_generator.py:249-262 | with no gaps the fallback remediation is the five defaults |
| PdfAnalyzer.SelectRules | server/agents/pdf_analyzer.py:172-174 | the supplied rules when non-empty, else the built-in text for the category, else the general sentence; never empty |
| PdfAnalyzer.BuiltInRulesCategories | server/agents/pdf_analyzer.py:44-152 | built-in rules exist exactly for SOX 404, 10-K, 8-K and Invoice |
| PdfAnalyzer.PagesTextAppend | server/agents/pdf_analyzer.py:177-179 | the page text of two page lists in sequence is the concatenation of their page texts |
| PdfAnalyzer.PagesTextSnoc | server/agents/pdf_analyzer.py:178-179 | one loop step appends exactly the next page's block |
| PdfAnalyzer.BuildPagesText | server/agents/pdf_analyzer.py:177-179 | the `+=` loop yields the in-order concatenation of "\n\n--- PAGE n ---\n" + text over all pages |
| PdfAnalyzer.PagesTextEmpty | server/agents/pdf_analyzer.py:177-179 | the page text is empty iff there are no pages, and otherwise starts with the first page's marker |
| PdfAnalyzer.MockAnalysis | server/agents/pdf_analyzer.py:263-336 | the sample gaps are chosen by category (SOX 404; 10-K and 8-K; everything else), with no raw observations |
| PdfAnalyzer.Severities | server/agents/pdf_analyzer.py:29 | the severity list of the gaps, in order |
| PdfAnalyzer.MockSeverities | server/agents/pdf_analyzer.py:266-336 | SOX 404 gives critical/high/medium, 10-K and 8-K give high/medium/medium, any other category gives high/medium |
| PdfAnalyzer.MockGapsWellFormed | server/agents/pdf_analyzer.py:263-336 | every sample gap has a severity among critical/high/medium and exactly one location, on page 1 |
| PdfAnalyzer.AnalysisOutcome | server/agents/pdf_analyzer.py:222-260 | no key or a raised call gives the sample analysis; gaps other than the sample gaps only come from a returned call with a key |
| PdfAnalyzer.AnalysisOutcomeCases | server/agents/pdf_analyzer.py:222-260 | no key, an exception, no output or empty text give the sample analysis; structured output is returned as is; decodable text is decoded; undecodable text keeps the sample gaps with the text as raw observations |
| PdfAnalyzer.AnalysisGapsOrigin | server/agents/pdf_analyzer.py:222-260 | the gaps are either the category's sample gaps or exactly what the model returned |
| PdfAnalyzer.AnalyzePdf | server/agents/pdf_analyzer.py:171-260 | the request carries the selected rules and the assembled page text; the result is the outcome of the reply |
| DocumentClassifier.Preview | server/agents/document_classifier.py:42 | the preview is the first 3000 characters, the whole text when shorter |
| DocumentClassifier.SkipSpace | server/agents/document_classifier.py:78 | skips exactly the whitespace run at the position |
| DocumentClassifier.OpenBrace | server/agents/document_classifier.py:78 | a match of the opening fence, optional "json", whitespace and "{" ends at a "{" |
| DocumentClassifier.FirstClose | server/agents/document_classifier.py:78 | the first position where "}", whitespace and a closing fence follow, or none at all (the lazy `.*?`) |
| DocumentClassifier.StripFences | server/agents/document_classifier.py:76-80 | text not starting with a fence is decoded as it is |
| DocumentClassifier.FencedRoundTrip | server/agents/document_classifier.py:76-80 | a fenced object with no backtick inside comes out of the fence stripping unchanged |
| DocumentClassifier.FencedLayout | server/agents/document_classifier.py:78 | the positions of the fence, tag, object and closing fence in a fenced reply |
| DocumentClassifier.FencedOpens | server/agents/document_classifier.py:78 | the opening part of the pattern matches right before the object |
| DocumentClassifier.FencedCloses | server/agents/document_classifier.py:78 | the closing part of the pattern matches at the object's last brace |
| DocumentClassifier.NoFenceInside | server/agents/document_classifier.py:78 | no closing match starts inside a backtick-free object |
| DocumentClassifier.FirstCloseIs | server/agents/document_classifier.py:78 | a closing match with none before it is the one the lazy search finds |
| DocumentClassifier.Verdict | server/agents/document_classifier.py:72-104 | a raised call rejects with the internal-error reason; no output rejects as unparseable; text output yields what its stripped, unfenced form decodes to, or rejects as unparseable when it does not decode; so an accepting verdict always comes from a decoded reply |
| DocumentClassifier.ClassifyDocument | server/agents/document_classifier.py:32-42 | with no key: accept with "Skipping validation (no API key)", no type, and no call made; with a key the call is sent the preview and the verdict is that of the reply, so it accepts only a decoded reply |
| DocumentClassifier.FencedReplyDecodesObject | server/agents/document_classifier.py:76-89 | a fenced object reply is decoded from the inner object, and its verdict is returned unchanged |
| ComplianceResearcher.RulesByType | server/agents/compliance_researcher.py:158-162 | the table has an entry exactly for SOX 404, 10-K and Invoice |
| ComplianceResearcher.ResearchComplianceRules | server/agents/compliance_researcher.py:168-191 | the table entry for a listed category, else no rules, no sections and threshold "Not specified" |
| ComplianceResearcher.ResearchTables | server/agents/compliance_researcher.py:35-162 | SOX 404, 10-K and Invoice each have five rules with distinct ids and allowed severities and five required sections; every other category gets the empty schema |
| ComplianceResearcher.EightKHasNoRules | server/agents/compliance_researcher.py:182-191 | 8-K has no table: empty rules, threshold "Not specified" |
| Pipeline.AuditId | server/services/pipeline.py:46 | the id is "aud_" followed by the first 8 lowercase hex digits of the uuid |
| Pipeline.ToGapDicts | server/services/pipeline.py:74-86 | one dictionary per gap, in order |
| Pipeline.GapDictsRoundTrip | server/services/pipeline.py:74-86 | the conversion loses nothing: every field and every location comes back from the dictionaries |
| Pipeline.ToGapDictsPenalty | server/services/pipeline.py:74-86 | converting the gaps does not change their penalty |
| Pipeline.RulesHandOffAsWritten | server/services/pipeline.py:62 | calling `.get` on the rule schema fails with an attribute error, whatever the schema |
| Pipeline.RuleLine | server/services/pipeline.py:62 | each rule renders as a line starting "- [" |
| Pipeline.RuleLines | server/services/pipeline.py:62 | one line per rule, in order |
| Pipeline.RulesText | server/services/pipeline.py:62 | the rules text is empty iff the schema has no rules |
| Pipeline.AnalysedRules | server/services/pipeline.py:59-71 | the analyser gets the researched rules for SOX 404, 10-K and Invoice, its built-in 8-K text for 8-K, and the general sentence otherwise |
| Pipeline.AsWrittenNeverCompletes | server/services/pipeline.py:53-62 | as written the pipeline never completes: it fails on extraction as the corrected one does, and otherwise with an internal error |
| Pipeline.AuditOutcome | server/services/pipeline.py:26-117 | fails iff extraction fails, always with a ValueError; a completed record carries the generated id and its report URL, and a score and grade computed from its own gaps |
| Pipeline.AuditOutcomeFails | server/services/pipeline.py:53-57 | the pipeline fails iff extraction fails, with a ValueError whose message starts "PDF extraction failed:" |
| Pipeline.AuditRecordFields | server/services/pipeline.py:91-113 | the record carries the id, user, source, name, type and timestamp given; the analyser's gaps field by field; score, grade, five steps, remediation, executive summary and URL from the report stage |
| Pipeline.OfflineScores | server/services/pipeline.py:46-113 | with no keys SOX 404 scores 74 (C), 10-K and 8-K 86 (B), other categories 89 (B) |
| Pipeline.MockPenalty | server/agents/pdf_analyzer.py:263-336 | the sample gaps' penalties are 26, 14 and 11 by category |
| Pipeline.UnfoldPenalty | server/agents/report_generator.py:40-42 | the penalty of up to three gaps is the sum of their weights |
| Pipeline.RunAuditPipeline | server/services/pipeline.py:26-117 | the stage sequence yields the specified outcome; on extraction failure only extraction ran; otherwise extract, research, analyse (with the selected rules and page text) and report ran in that order, the report stage getting the result's id and gaps |
| PdfExtractor.PageRecords | server/services/pdf_extractor.py:83-91 | one record per page, numbered from 1 in document order, each with the stripped text |
| PdfExtractor.Extract | server/services/pdf_extractor.py:61-110 | extraction fails iff the document cannot be read or has no pages, with "PDF contains no pages" for the latter |
| PdfExtractor.AssemblePages | server/services/pdf_extractor.py:80-91 | the page loop builds the page records and keeps the raw texts |
| PdfExtractor.PageRecordsSnoc | server/services/pdf_extractor.py:83-91 | one loop step appends the next numbered, stripped page |
| PdfExtractor.ExtractText | server/services/pdf_extractor.py:68-110 | the extraction method yields the specified result |
| PdfExtractor.ExtractionShape | server/services/pdf_extractor.py:76-110 | on success: page count equals the number of records and pages, numbering runs 1, 2, …, texts are stripped, and the full text is the stripped "\n\n"-join of the raw texts |
| PdfExtractor.SinglePageFullText | server/services/pdf_extractor.py:89-106 | for one page, the full text equals the page's text |
| PdfExtractor.GetTextByPage | server/services/pdf_extractor.py:142-156 | the text of the first page with that number, or "" when there is none |
| PdfExtractor.PageRecordsLookup | server/services/pdf_extractor.py:83-91 | page n of an extraction is found at position n − 1, with no earlier page carrying that number |
| PdfExtractor.Window | server/services/pdf_extractor.py:177-179 | the window runs from 50 characters before the first case-insensitive occurrence to 50 after its end, clipped to the text |
| PdfExtractor.WindowBounds | server/services/pdf_extractor.py:177-179 | the window is (max(0, idx − 50), min(len, idx + len(term) + 50)) |
| PdfExtractor.MarkedEllipsis | server/services/pdf_extractor.py:180-188 | the stripped context starts with "..." when the window starts after 0 and ends with it when the window stops before the end |
| PdfExtractor.MatchOnWindow | server/services/pdf_extractor.py:175-189 | a page containing the term yields the page's number and the stripped, marked window text |
| PdfExtractor.MatchOn | server/services/pdf_extractor.py:175-189 | a page yields a hit iff its lowered text contains the lowered term, and the hit carries the page's number |
| PdfExtractor.Search | server/services/pdf_extractor.py:173-189 | at most one hit per page |
| PdfExtractor.SearchSnoc | server/services/pdf_extractor.py:173-189 | one loop step appends the current page's match, if any |
| PdfExtractor.PageHit | server/services/pdf_extractor.py:174-189 | the loop body yields the page's match exactly as specified |
| PdfExtractor.SearchTextInPages | server/services/pdf_extractor.py:159-191 | the search loop yields the specified matches |
| PdfExtractor.MatchOnSpec | server/services/pdf_extractor.py:175-189 | a page matches iff its lowered text contains the lowered term; the match carries the page number and the ellipsis markers |
| PdfExtractor.SearchOrigins | server/services/pdf_extractor.py:173-189 | each match is the match of one page, listed by index |
| PdfExtractor.MatchedIndicesOrdered | server/services/pdf_extractor.py:173-189 | at most one match per page, in strictly increasing page order |
| PdfExtractor.MatchedIndicesExact | server/services/pdf_extractor.py:175 | a page is among the matches iff it contains the term case-insensitively |
| AuditRoute.DocTypeMap | server/routes/audit.py:42-47 | a key maps iff it is one of the four lowercase keys, and then to one of the four canonical categories |
| AuditRoute.NormalizeDocumentType | server/routes/audit.py:42-48 | a category is accepted iff its lowercase is one of the four keys; it maps to a canonical category with the same lowercase |
| AuditRoute.CanonicalLower | server/routes/audit.py:42-47 | the four canonical categories lowercase to the four keys |
| AuditRoute.NormalizeIdempotent | server/routes/audit.py:42-48 | normalising is idempotent, each canonical category maps to itself, and case does not matter |
| AuditRoute.LowerIdempotent | server/routes/audit.py:48 | lowercasing twice equals lowercasing once |
| AuditRoute.Quoted | server/routes/audit.py:50 | one quoted name per category |
| AuditRoute.InvalidTypeMessageText | server/routes/audit.py:50-54 | the rejection message lists 'SOX 404', '10-K', '8-K', 'Invoice' |
| AuditRoute.CanonicalList | server/routes/audit.py:50 | the joined list of quoted categories |
| AuditRoute.JoinFour | server/routes/audit.py:50 | a join of four names puts the separator between each pair |
| AuditRoute.QuotedCanonical | server/routes/audit.py:50 | the four categories, each in single quotes |
| AuditRoute.ErrorCode | server/routes/audit.py:64-71 | NOT_FINANCIAL_DOCUMENT iff the message starts "Invalid document:", PDF_EXTRACTION_FAILED iff it instead starts "PDF extraction failed:", VALIDATION_ERROR otherwise |
| AuditRoute.Respond | server/routes/audit.py:56-86 | success iff the pipeline succeeded, returning the record without its internal keys; a ValueError becomes 400 with its code and message; anything else becomes 500 "Audit processing failed" |
| AuditRoute.FilteringRemovesOnlyInternalKeys | server/routes/audit.py:86 | removing user_id and source loses nothing else: putting them back restores the record |
| AuditRoute.Route | server/routes/audit.py:37-88 | a missing or non-".pdf" filename gives 400 before anything runs; an unknown category gives 400 with the list; otherwise the pipeline's outcome; the record is saved iff it succeeded, the database is configured and the save did not raise |
| AuditRoute.ResponseIndependentOfSave | server/routes/audit.py:77-86 | the database setting and a failed save never change the response |
| AuditRoute.NotFinancialUnreachable | server/routes/audit.py:64-72 | no coded error other than PDF_EXTRACTION_FAILED can reach the client |
| AuditRoute.PrefixesDiffer | server/routes/audit.py:66-69 | a message starting "PDF extraction failed:" does not start "Invalid document:" |
| AuditRoute.AcceptedUpload | server/routes/audit.py:37-88 | with the corrected pipeline an accepted, extractable upload succeeds, keeping the generated id, filename, canonical category and report URL |
| AuditRoute.AsWrittenUploadsFail | server/routes/audit.py:56-75 | with the pipeline as written every accepted, extractable upload is answered 500 and nothing is saved |
| FilesRoute.GetFile | server/routes/files.py:15-35 | a name with "..", "/" or "\\" gives 400; a safe name not present gives 404; otherwise the file in the reports directory, as application/pdf, under the same name |
| FilesRoute.SafeNameIsOneComponent | server/routes/files.py:23-24 | an accepted name has no separator and no two adjacent dots anywhere |
| FilesRoute.GeneratedReportNamesAreSafe | server/services/pipeline.py:46-112 | every report name the pipeline hands out passes the check, so it is served when the file exists |
| FilesRoute.NoCharNoSub | server/routes/files.py:23 | a string without a character does not contain it as a substring |
| FilesRoute.NoPairNoSub | server/routes/files.py:23 | a string without two adjacent dots does not contain ".." |
| HistoryRoute.IsDbConfigured | server/routes/history.py:13-14 | true iff both variables are set and non-empty |
| HistoryRoute.MockAuditsAsWrittenInconsistent | server/routes/history.py:21-85 | the sample scores 62 and 78 grade D and C, not the C and B given, and the samples' own gaps score 74 and 86 |
| HistoryRoute.SampleScores | server/routes/history.py:18-140 | the sample gaps score 74 and 86 |
| HistoryRoute.MockAuditsConsistent | server/routes/history.py:18-140 | each corrected sample has the score of its gaps, that score's grade, five steps and its id-derived URL; ids are distinct |
| HistoryRoute.MockHistory | server/routes/history.py:159-169 | one entry per sample audit of the table, in table order, copying its six summary keys |
| HistoryRoute.GetHistory | server/routes/history.py:143-171 | the database's list when it is configured and the read succeeds, else the sample list |
| HistoryRoute.MockHistoryIgnoresUser | server/routes/history.py:159-171 | in sample mode the list has one entry per sample and does not depend on the user |
| HistoryRoute.MockLookup | server/routes/history.py:192-195 | found iff some sample carries that id, and then it is the first sample with that id |
| HistoryRoute.MockLookupFinds | server/routes/history.py:192-195 | with distinct ids, looking up a sample's id finds that sample |
| HistoryRoute.GetAudit | server/routes/history.py:174-195 | the database's record when it finds one; otherwise the sample with that id, unchanged, or 404 "Audit not found" |
| HistoryRoute.MissAndErrorAgree | server/routes/history.py:181-189 | a database miss, a database error and no database give the same answer |
| HistoryRoute.MockHistoryResolves | server/routes/history.py:159-195 | each sample history entry's id leads to its full record |
| HistoryRoute.ServedSamplesAsWritten | server/routes/history.py:21-195 | without a database the program serves the table as written: 62 with "C" and 78 with "B", in the list and the detail, though 62 grades "D" |
| HistoryRoute.ServedSamplesCorrected | server/routes/history.py:18-195 | over the corrected table, every served entry's grade is its score's grade |
| EmbedBuilder.Truncate | discord-bot/services/embed_builder.py:8-12 | text within the limit is unchanged; longer text becomes its first limit − 3 characters and "...", exactly limit long |
| EmbedBuilder.TruncateIdempotent | discord-bot/services/embed_builder.py:8-12 | truncating twice equals truncating once |
| EmbedBuilder.GradeColor | discord-bot/services/embed_builder.py:16-22 | any grade other than A–D is red 0xFF0000 |
| EmbedBuilder.FirstN | discord-bot/services/embed_builder.py:64 | the first n items, or all when fewer |
| EmbedBuilder.Embed.constructor | discord-bot/services/embed_builder.py:43-47 | a new embed has the title, description and colour given, no fields and no footer |
| EmbedBuilder.Embed.AddField | discord-bot/services/embed_builder.py:50-54 | appends one field and changes nothing else |
| EmbedBuilder.Embed.SetFooter | discord-bot/services/embed_builder.py:87 | sets the footer and changes nothing else |
| EmbedBuilder.Embed.SetDescription | discord-bot/services/embed_builder.py:186 | sets the description and changes nothing else |
| EmbedBuilder.GapField | discord-bot/services/embed_builder.py:66-72 | a gap's field is not inline and its value fits the 1024-character limit |
| EmbedBuilder.GapFields | discord-bot/services/embed_builder.py:65-72 | one field per gap, in order |
| EmbedBuilder.TimestampFields | discord-bot/services/embed_builder.py:75-85 | no field for an empty timestamp, otherwise one inline "Timestamp" field whose value is the formatted date, or the raw text when it does not parse |
| EmbedBuilder.HeaderFields | discord-bot/services/embed_builder.py:49-61 | two inline fields: "Compliance Score" opening with "**" + score + "/100**", then "Document Type" with the category |
| EmbedBuilder.AddHeaderFields | discord-bot/services/embed_builder.py:49-61 | appends the score and category fields and nothing else |
| EmbedBuilder.AddGapFields | discord-bot/services/embed_builder.py:65-72 | the loop appends the gaps' fields in order and nothing else |
| EmbedBuilder.AddTimestamp | discord-bot/services/embed_builder.py:75-85 | appends the timestamp field, if any, and nothing else |
| EmbedBuilder.ResultShowsFirstThreeGaps | discord-bot/services/embed_builder.py:64-72 | the result embed shows at most three gaps, the first ones in order, right after the two header fields |
| EmbedBuilder.BuildAuditResultEmbed | discord-bot/services/embed_builder.py:33-88 | title "📊 Audit Complete: " + name, the summary or "", colour of the shown grade, the specified fields, footer "Audit ID: " + id |
| EmbedBuilder.MissingGradeIsRedF | discord-bot/services/embed_builder.py:40-41 | a missing grade shows as "F" in red |
| EmbedBuilder.NumberedSteps | discord-bot/services/embed_builder.py:130 | step i is numbered i + 1, in order |
| EmbedBuilder.RemediationFields | discord-bot/services/embed_builder.py:128-135 | no field without steps, else one "Remediation Steps" field within the limit |
| EmbedBuilder.DetailShowsAllGaps | discord-bot/services/embed_builder.py:116-148 | the detail embed shows every gap, in order, after the header; then the remediation and timestamp fields when present |
| EmbedBuilder.DetailRemediationFollowsGaps | discord-bot/services/embed_builder.py:117-135 | with steps, the field right after the gaps is "Remediation Steps" |
| EmbedBuilder.RemediationNumberedFromOne | discord-bot/services/embed_builder.py:130 | the remediation text starts "**1.** " followed by the first step |
| EmbedBuilder.BuildDetailEmbed | discord-bot/services/embed_builder.py:91-151 | title "📊 Audit Detail: " + name, the summary, the grade's colour, the specified fields, footer with the id |
| EmbedBuilder.GradeBucket | discord-bot/services/embed_builder.py:167-171 | critical iff D or F, medium iff C, low for every other grade |
| EmbedBuilder.DateText | discord-bot/services/embed_builder.py:172-179 | "" without a timestamp; the formatted date when it parses; the first ten characters when it does not |
| EmbedBuilder.HistoryLines | discord-bot/services/embed_builder.py:166-184 | one line per audit, in order, each the line of that audit |
| EmbedBuilder.MapSnoc | discord-bot/services/embed_builder.py:166-184 | mapping one more item appends that item's line |
| EmbedBuilder.CollectHistoryLines | discord-bot/services/embed_builder.py:166-184 | the `append` loop yields exactly the specified lines, one per audit shown, in order |
| EmbedBuilder.HistoryFooter | discord-bot/services/embed_builder.py:188-191 | "Showing 10 most recent of N audits" iff N > 10, else "N audit(s) total" |
| EmbedBuilder.BuildHistoryEmbed | discord-bot/services/embed_builder.py:154-193 | title "📜 Audit History" in blurple, no fields, the first ten audits' lines joined by blank lines, and the footer for the full count |
| EmbedBuilder.HistoryShowsFirstTen | discord-bot/services/embed_builder.py:164-186 | at most ten lines, for the first ten audits in order |
| EmbedBuilder.BuildProcessingEmbed | discord-bot/services/embed_builder.py:196-205 | the processing title, message and blurple colour, no fields |
| EmbedBuilder.BuildErrorEmbed | discord-bot/services/embed_builder.py:208-214 | title "❌ Error", the message as description, red, no fields |
| Strings.LowerChar | server/routes/audit.py:48 | ASCII capitals map to their lowercase letters; every other character is unchanged |
| Strings.Lower | server/services/pdf_extractor.py:171-177 | same length, each character lowercased |
| Strings.TrimStart | server/services/pdf_extractor.py:89 | drops exactly the leading whitespace |
| Strings.TrimEnd | server/services/pdf_extractor.py:89 | drops exactly the trailing whitespace |
| Strings.Strip | server/services/pdf_extractor.py:89 | the result neither starts nor ends with whitespace |
| Strings.StripKeepsPrefix | server/services/pdf_extractor.py:181-188 | a prefix with no whitespace survives stripping |
| Strings.StripKeepsSuffix | server/services/pdf_extractor.py:183-188 | a suffix with no whitespace survives stripping |
| Strings.TrimStartNoop | server/services/pdf_extractor.py:89 | a text starting with a non-space is unchanged by trimming its start |
| Strings.TrimEndNoop | server/services/pdf_extractor.py:89 | a text ending with a non-space is unchanged by trimming its end |
| Strings.TrimEndKeepsPrefix | server/services/pdf_extractor.py:181-188 | trimming the end keeps a prefix whose last character is not whitespace |
| Strings.TrimStartKeepsSuffix | server/services/pdf_extractor.py:183-188 | trimming the start keeps a suffix whose first character is not whitespace |
| Strings.FindFrom | server/services/pdf_extractor.py:177 | the first occurrence from a position, or −1 when there is none |
| Strings.Find | server/services/pdf_extractor.py:177 | −1 iff the substring does not occur, else its first occurrence |
| Strings.Join | server/services/pdf_extractor.py:93 | joining no parts gives "", and one part gives that part |
| Strings.JoinSnoc | server/services/pdf_extractor.py:93 | appending a part appends the separator and the part: the separator sits between neighbours only |
| Strings.JoinStartsWithFirst | discord-bot/services/embed_builder.py:130 | a join of a non-empty list starts with its first part |
| Strings.PyPrefix | discord-bot/services/embed_builder.py:179 | a slice `s[:k]` with Python's clipping and negative bounds |
| Strings.DigitChar | discord-bot/services/embed_builder.py:189 | a digit below 10 renders as a decimal digit character |
| Strings.DigitCharValue | discord-bot/services/embed_builder.py:189 | the character rendered for digit d has the value d |
| Strings.NatToString | discord-bot/services/embed_builder.py:189 | a natural number renders as a non-empty run of digits |
| Strings.NatToStringValue | discord-bot/services/embed_builder.py:189 | the digits rendered for n spell n |
| Strings.NatToStringLeadingDigit | discord-bot/services/embed_builder.py:189 | the numeral starts with "0" iff the number is 0 |
| Strings.LeadingDigitPositive | discord-bot/services/embed_builder.py:189 | digits not starting with "0" spell a positive number |
| Strings.NatToStringOfDigits | discord-bot/services/embed_builder.py:189 | reading then rendering gives back any digit string without a leading zero: rendering is the inverse of reading |
| Strings.IntToString | discord-bot/services/embed_builder.py:189 | an integer renders as non-empty text |
| Strings.IntToStringDigits | discord-bot/services/embed_builder.py:189 | `str(n)` starts with "-" iff n < 0; the digits after the sign spell the magnitude, with no leading zero except for 0 itself |

## Left out

- PDF rendering of the report (`_generate_pdf`, report_generator.py:267-384) is not modelled, and the model takes it not to raise. Only `doc.build` sits inside a `try` (380-384); the directory creation and the building of every `Paragraph` (287, 324-378) do not. A raise there would have two effects the model does not capture:
  - On the live path (182) it is caught by `generate_report`'s own `try`, so an accepted live report would be discarded and the fallback returned (185-190). ReportGenerator.LiveBodyAccepted and ReportGenerator.ReportOfShape hold only when rendering does not raise.
  - On the fallback paths (102, 189) it propagates. A `ValueError` from rendering would reach the route as a 400 VALIDATION_ERROR (audit.py:64-72), and any other error as a 500. AuditRoute.NotFinancialUnreachable's "only extraction error codes" holds only when rendering does not raise.
- Creating the reports directory (`REPORTS_DIR.mkdir`, pipeline.py:50) is not modelled. It runs before the extraction `try`, so a failure there would escape `run_audit_pipeline` and reach the route as a 500; the model takes it to succeed.
- PDF parsing is not modelled: opening the file, decryption, metadata and the "Error extracting text" path (pdf_extractor.py:48-73, 96-101, 112-117). A document is either readable with a list of page texts or unreadable with a message.
- `extract_text_from_upload` and `run_audit_pipeline_from_upload` only read the upload's bytes. The document's page texts and name are inputs instead.
- The database module is not part of this model. Its replies to the history routes are inputs, and a save is a flag that says whether it raised.
- The Discord command handlers, the bot and the HTTP client are not part of this model. Neither is the embed library beyond the fields the builders set.
- Language-model calls (analyser, reporter, classifier) are not modelled: each reply is an input datatype. What a reply decodes to (JSON parsing, schema validation) is part of that input.
- `os.getenv`, `uuid4` and `datetime.now` become inputs. Only the uuid's format is constrained: 32 lowercase hex digits.
- Calendar date formatting (`strftime`, `fromisoformat`) is a `string -> Option<string>` parameter.
- Case folding and stripping cover ASCII only. Python's Unicode `lower()` and `strip()` act on more characters.
- Logging (`print`) and `async` scheduling are not modelled; they do not change any result.
- Dictionary keys are taken as present:
  - Gap dictionaries always carry all keys, because every producer supplies them. The `.get` defaults of `_fallback_report` ("medium", "identified gap", "applicable regulations", "a critical deficiency") therefore never apply.
  - An extraction without a "pages" key is not modelled.
- In embed data, a key that is present with the value null is treated like a missing key.
- DocumentClassifier.ClassifyDocument: the client is built before the `try` (document_classifier.py:38), so a failure while constructing it would escape the function. The model treats every failure of the call as the internal-error verdict.
- `classify_document` is modelled on its own: the pipeline never calls it. So "Invalid document:" never reaches the route, which AuditRoute.NotFinancialUnreachable states.
- ReportGenerator.FallbackReport: `_fallback_report` is split into FallbackSummaryText and FallbackRemediationSteps, each proved against its own specification.
- PdfExtractor.MarkedEllipsis states the "..." markers in one direction only. A page text that itself starts or ends with "..." also shows them, so the converse does not hold.
- Pipeline.RuleLine: the text handed to the analyser in the corrected pipeline is one line per rule, "- [severity] id: description (regulation)". The source does not fix a format, since its hand-off fails.
- FilesRoute.GetFile: the names "" and "." pass the name check and would name the reports directory itself. The model treats them like any other name, looked up in the set of files present.
- Discord limits other than the 1024-character field value (title, description, total size) are not modelled.

## Findings

| source | as written | input that shows it | evidently intended | confidence | as-written member | corrected member |
|---|---|---|---|---|---|---|
| server/services/pipeline.py:62 | `compliance_research.get("rules", "")` is called on the `ComplianceRulesSchema` object that `research_compliance_rules` returns, which has no `.get`; the AttributeError turns into a 500 | any readable PDF with any accepted category, e.g. one page "x" as "SOX 404" | hand the researched rules to the analyser as text, empty when there are none | high (not executed) | Pipeline.AsWrittenNeverCompletes, AuditRoute.AsWrittenUploadsFail | Pipeline.AnalysedRules, Pipeline.RulesText, AuditRoute.AcceptedUpload |
| server/routes/history.py:21-85 | sample audit "aud_abc123" has score 62 with grade "C", and "aud_def456" has 78 with "B" | the grade bands give 62 → D and 78 → C; the samples' own gaps score 74 and 86 | scores computed from the samples' gaps (74, 86), which agree with the grades given | medium (not executed) | HistoryRoute.MockAuditsAsWrittenInconsistent, HistoryRoute.ServedSamplesAsWritten | HistoryRoute.MockAuditsConsistent, HistoryRoute.ServedSamplesCorrected |

The history routes take the sample table as a parameter. The program as written serves
`MockAuditsAsWritten`, which HistoryRoute.ServedSamplesAsWritten states; `MockAudits` is the
corrected table with grades that agree with the scores.
