/** The score/grade engine and the report synthesizer: a linear severity
    penalty clamped at zero, fixed grade bands, a "pad or cut to exactly five"
    remediation list, a deterministic fallback report, and the choice between
    the generation backend's reply and that fallback. */
module ReportGenerator {
  import opened Wrappers
  import opened Strings
  import opened AuditTypes

  // ---------------------------------------------------------------------
  // Score and grade
  // ---------------------------------------------------------------------

  /** The penalty of one gap: critical 15, high 8, any other label 3. */
  function Weight(severity: string): nat {
    if severity == "critical" then 15 else if severity == "high" then 8 else 3
  }

  /** The sum of the weights of all gaps. */
  function Penalty(gaps: seq<GapDict>): nat {
    if gaps == [] then 0 else Weight(gaps[0].severity) + Penalty(gaps[1..])
  }

  /** Every gap weighs between 3 and 15. */
  lemma {:induction false} PenaltyBounds(gaps: seq<GapDict>)
    ensures 3 * |gaps| <= Penalty(gaps) <= 15 * |gaps|
  {
    if gaps != [] {
      PenaltyBounds(gaps[1..]);
    }
  }

  /** `_calculate_score`: 100 minus the penalty, never below 0. */
  function Score(gaps: seq<GapDict>): (s: int)
    ensures 0 <= s <= 100
  {
    if Penalty(gaps) >= 100 then 0 else 100 - Penalty(gaps)
  }

  /** The number of gaps whose severity label is exactly `severity`. */
  function CountSeverity(gaps: seq<GapDict>, severity: string): (n: nat)
    ensures n <= |gaps|
  {
    if gaps == [] then 0
    else (if gaps[0].severity == severity then 1 else 0) + CountSeverity(gaps[1..], severity)
  }

  lemma {:induction false} PenaltyAppend(a: seq<GapDict>, b: seq<GapDict>)
    ensures Penalty(a + b) == Penalty(a) + Penalty(b)
  {
    if a == [] {
      assert a + b == b;
    } else {
      assert (a + b)[0] == a[0];
      assert (a + b)[1..] == a[1..] + b;
      PenaltyAppend(a[1..], b);
    }
  }

  /** An independent reading of the penalty: 15 per critical gap, 8 per high
      gap and 3 for every other gap. */
  lemma {:induction false} PenaltyByCounts(gaps: seq<GapDict>)
    ensures CountSeverity(gaps, "critical") + CountSeverity(gaps, "high") <= |gaps|
    ensures Penalty(gaps) == 15 * CountSeverity(gaps, "critical") + 8 * CountSeverity(gaps, "high")
                             + 3 * (|gaps| - CountSeverity(gaps, "critical") - CountSeverity(gaps, "high"))
  {
    if gaps != [] {
      PenaltyByCounts(gaps[1..]);
    }
  }

  /** The score is `max(0, 100 - (15 c + 8 h + 3 o))` for c critical, h high
      and o other gaps. */
  lemma ScoreByCounts(gaps: seq<GapDict>)
    ensures var c, h := CountSeverity(gaps, "critical"), CountSeverity(gaps, "high");
            var p := 15 * c + 8 * h + 3 * (|gaps| - c - h);
            Score(gaps) == if p >= 100 then 0 else 100 - p
  {
    PenaltyByCounts(gaps);
  }

  /** Taking one gap out of a list lowers the penalty by that gap's weight. */
  lemma PenaltyRemove(b: seq<GapDict>, j: nat)
    requires j < |b|
    ensures Penalty(b) == Weight(b[j].severity) + Penalty(b[..j] + b[j + 1..])
  {
    var left, tail, right := b[..j], b[j..], b[j + 1..];
    assert left + tail == b;
    assert tail[0] == b[j] && tail[1..] == right;
    PenaltyAppend(left, tail);
    PenaltyAppend(left, right);
  }

  /** The penalty is a sum, so reordering the gaps leaves it unchanged. */
  lemma {:induction false} PenaltyPermutation(a: seq<GapDict>, b: seq<GapDict>)
    requires multiset(a) == multiset(b)
    ensures Penalty(a) == Penalty(b)
    decreases |a|
  {
    if a == [] {
      assert |b| == |multiset(b)| == 0;
    } else {
      var x := a[0];
      assert a == [x] + a[1..];
      assert multiset(a[1..]) == multiset(a) - multiset{x};
      assert x in multiset(b);
      var j :| 0 <= j < |b| && b[j] == x;
      var rest := b[..j] + b[j + 1..];
      assert b == b[..j] + [x] + b[j + 1..];
      assert multiset(rest) == multiset(b) - multiset{x};
      PenaltyPermutation(a[1..], rest);
      PenaltyRemove(b, j);
    }
  }

  /** Scoring does not depend on the order of the gaps. */
  lemma ScorePermutation(a: seq<GapDict>, b: seq<GapDict>)
    requires multiset(a) == multiset(b)
    ensures Score(a) == Score(b)
  {
    PenaltyPermutation(a, b);
  }

  /** Reporting more gaps never raises the score; each extra gap takes at
      least 3 points until the score reaches 0. */
  lemma ScoreAppend(gaps: seq<GapDict>, more: seq<GapDict>)
    ensures Score(gaps + more) <= Score(gaps)
    ensures Score(gaps) >= 3 * |more| ==> Score(gaps + more) <= Score(gaps) - 3 * |more|
  {
    PenaltyAppend(gaps, more);
    PenaltyByCounts(more);
  }

  /** `_calculate_grade`: the five fixed bands. */
  function Grade(score: int): (g: string)
    ensures g == "A" <==> score >= 90
    ensures g == "B" <==> 80 <= score < 90
    ensures g == "C" <==> 70 <= score < 80
    ensures g == "D" <==> 60 <= score < 70
    ensures g == "F" <==> score < 60
  {
    if score >= 90 then "A"
    else if score >= 80 then "B"
    else if score >= 70 then "C"
    else if score >= 60 then "D"
    else "F"
  }

  /** Position of a grade letter from best (0) to worst (4). */
  function LetterRank(g: string): nat {
    if g == "A" then 0 else if g == "B" then 1 else if g == "C" then 2 else if g == "D" then 3 else 4
  }

  /** A higher score never gets a worse grade. */
  lemma GradeMonotone(s: int, t: int)
    requires s <= t
    ensures LetterRank(Grade(t)) <= LetterRank(Grade(s))
  {
  }

  /** No gaps: full marks and an A. */
  lemma EmptyAuditScoresA()
    ensures Score([]) == 100 && Grade(Score([])) == "A"
  {
  }

  // ---------------------------------------------------------------------
  // Remediation list normalisation
  // ---------------------------------------------------------------------

  /** The generic steps that pad a short remediation list, in order. */
  const DefaultSteps: seq<string> := [
    "Document all remediation actions taken with supporting evidence for audit trail.",
    "Conduct training for relevant personnel on updated compliance requirements.",
    "Schedule a follow-up compliance review within 60 days to verify remediation effectiveness.",
    "Update internal control documentation to reflect current processes.",
    "Establish a continuous monitoring program for high-risk areas."
  ]

  /** `_ensure_five_items`: exactly five steps; the first five of a long list,
      or a short list followed by the first defaults. */
  function EnsureFive(items: seq<string>): (r: seq<string>)
    ensures |r| == 5
    ensures |items| >= 5 ==> r == items[..5]
    ensures |items| < 5 ==> r[..|items|] == items
    ensures |items| < 5 ==> forall k :: |items| <= k < 5 ==> r[k] == DefaultSteps[k - |items|]
  {
    if |items| >= 5 then items[..5] else items + DefaultSteps[..5 - |items|]
  }

  /** Normalising an already normalised list changes nothing. */
  lemma EnsureFiveIdempotent(items: seq<string>)
    ensures EnsureFive(EnsureFive(items)) == EnsureFive(items)
  {
  }

  // ---------------------------------------------------------------------
  // Fallback report
  // ---------------------------------------------------------------------

  /** The executive summary and the remediation list of a report. */
  datatype ReportBody = ReportBody(remediation: seq<string>, executiveSummary: string)

  /** The fixed deadline attached to a gap of the given severity. */
  function Timeframe(severity: string): (t: string)
    ensures t == "within 14 days" <==> severity == "critical"
    ensures t == "within 30 days" <==> severity == "high"
    ensures t == "within 60 days" <==> severity != "critical" && severity != "high"
  {
    if severity == "critical" then "within 14 days"
    else if severity == "high" then "within 30 days"
    else "within 60 days"
  }

  /** The fallback remediation step for one gap. */
  function RemediationStep(g: GapDict): string {
    "Address \"" + g.title + "\" " + Timeframe(g.severity)
    + " by reviewing compliance with " + g.regulation + "."
  }

  /** One remediation step per gap, in order. */
  function RemediationSteps(gaps: seq<GapDict>): (r: seq<string>)
    ensures |r| == |gaps|
    ensures forall i :: 0 <= i < |gaps| ==> r[i] == RemediationStep(gaps[i])
  {
    if gaps == [] then [] else [RemediationStep(gaps[0])] + RemediationSteps(gaps[1..])
  }

  function Min(a: int, b: int): int { if a <= b then a else b }

  /** Index of the first gap with the given severity label. */
  function FirstWithSeverity(gaps: seq<GapDict>, severity: string): (i: nat)
    requires CountSeverity(gaps, severity) > 0
    ensures i < |gaps| && gaps[i].severity == severity
    ensures forall j :: 0 <= j < i ==> gaps[j].severity != severity
  {
    if gaps[0].severity == severity then 0 else 1 + FirstWithSeverity(gaps[1..], severity)
  }

  /** The "n critical", "n high", "n medium" phrases, each only when its count is non-zero. */
  function SeverityParts(critical: nat, high: nat, medium: nat): seq<string> {
    (if critical > 0 then [IntToString(critical) + " critical"] else [])
    + (if high > 0 then [IntToString(high) + " high"] else [])
    + (if medium > 0 then [IntToString(medium) + " medium"] else [])
  }

  /** The closing sentences: the first critical finding, else the high-priority advice, else the satisfactory note. */
  function SummaryClosing(gaps: seq<GapDict>): string {
    if CountSeverity(gaps, "critical") > 0 then
      "The most critical finding involves "
      + Lower(gaps[FirstWithSeverity(gaps, "critical")].title) + ". "
      + "Immediate remediation is required for critical findings before the next reporting cycle."
    else if CountSeverity(gaps, "high") > 0 then
      "High-priority gaps should be addressed within 30 days. "
      + "A follow-up review should be scheduled after remediation actions are completed."
    else
      "The compliance posture is satisfactory with minor improvements recommended. "
      + "A follow-up review should be scheduled within the next quarter."
  }

  /** "various" when there is no phrase, else the phrases joined by commas. */
  function SeverityText(parts: seq<string>): string {
    if parts == [] then "various" else Join(", ", parts)
  }

  /** The opening sentences of the fallback summary: category, gap count,
      severity breakdown, score and grade. */
  function SummaryOpening(documentType: string, gapCount: nat, severityText: string,
                          score: int, grade: string): string
  {
    "The audit of the " + documentType + " document identified " + IntToString(gapCount)
    + " compliance gaps (" + severityText + " severity). "
    + "The overall compliance score is " + IntToString(score) + "/100 (Grade: " + grade + "). "
  }

  /** The fallback executive summary, built from the severity counts and the score. */
  function FallbackSummary(score: int, grade: string, gaps: seq<GapDict>, documentType: string): string {
    var parts := SeverityParts(CountSeverity(gaps, "critical"), CountSeverity(gaps, "high"),
                               CountSeverity(gaps, "medium"));
    SummaryOpening(documentType, |gaps|, SeverityText(parts), score, grade) + SummaryClosing(gaps)
  }

  /** The fallback remediation list: one step per gap among the first five, padded to five. */
  function FallbackSteps(gaps: seq<GapDict>): seq<string> {
    EnsureFive(RemediationSteps(gaps[..Min(5, |gaps|)]))
  }

  /** The fallback report body. */
  function FallbackBody(score: int, grade: string, gaps: seq<GapDict>, documentType: string): ReportBody {
    ReportBody(FallbackSteps(gaps), FallbackSummary(score, grade, gaps, documentType))
  }

  /** `_fallback_report`: the summary and the remediation list. */
  method FallbackReport(score: int, grade: string, gaps: seq<GapDict>, documentType: string)
    returns (body: ReportBody)
    ensures body == FallbackBody(score, grade, gaps, documentType)
  {
    var summary := FallbackSummaryText(score, grade, gaps, documentType);
    var remediation := FallbackRemediationSteps(gaps);
    body := ReportBody(remediation, summary);
  }

  /** The executive summary half of `_fallback_report`: the severity phrases
      are appended one by one, then the closing sentences. */
  method FallbackSummaryText(score: int, grade: string, gaps: seq<GapDict>, documentType: string)
    returns (summary: string)
    ensures summary == FallbackSummary(score, grade, gaps, documentType)
  {
    var criticalCount := CountSeverity(gaps, "critical");
    var highCount := CountSeverity(gaps, "high");
    var mediumCount := CountSeverity(gaps, "medium");
    var parts: seq<string> := [];
    if criticalCount > 0 {
      parts := parts + [IntToString(criticalCount) + " critical"];
    }
    if highCount > 0 {
      parts := parts + [IntToString(highCount) + " high"];
    }
    if mediumCount > 0 {
      parts := parts + [IntToString(mediumCount) + " medium"];
    }
    assert parts == SeverityParts(criticalCount, highCount, mediumCount);
    var severityText := if parts != [] then Join(", ", parts) else "various";
    summary := SummaryOpening(documentType, |gaps|, severityText, score, grade);
    summary := summary + SummaryClosing(gaps);
  }

  /** The remediation half of `_fallback_report`: one step per gap among the
      first five, appended in order, then padded to five. */
  method FallbackRemediationSteps(gaps: seq<GapDict>) returns (steps: seq<string>)
    ensures steps == FallbackSteps(gaps)
  {
    var remediation: seq<string> := [];
    var n := Min(5, |gaps|);
    var i := 0;
    while i < n
      invariant 0 <= i <= n
      invariant |remediation| == i
      invariant forall k :: 0 <= k < i ==> remediation[k] == RemediationStep(gaps[k])
    {
      remediation := remediation + [RemediationStep(gaps[i])];
      i := i + 1;
    }
    StepsOfPrefix(remediation, gaps, n);
    steps := EnsureFive(remediation);
  }

  /** A list holding the step of each of the first `n` gaps, in order, is
      the step list of those gaps. */
  lemma StepsOfPrefix(steps: seq<string>, gaps: seq<GapDict>, n: nat)
    requires n <= |gaps| && |steps| == n
    requires forall k :: 0 <= k < n ==> steps[k] == RemediationStep(gaps[k])
    ensures steps == RemediationSteps(gaps[..n])
  {
    var r := RemediationSteps(gaps[..n]);
    forall k | 0 <= k < n
      ensures steps[k] == r[k]
    {
      assert gaps[..n][k] == gaps[k];
    }
  }

  /** The fallback remediation list: exactly five steps; step i addresses
      gap i, for each of the first five gaps, and defaults fill the rest. */
  lemma FallbackRemediation(gaps: seq<GapDict>)
    ensures var r := FallbackSteps(gaps);
            && |r| == 5
            && (forall i :: 0 <= i < Min(5, |gaps|) ==> r[i] == RemediationStep(gaps[i]))
            && (forall i :: Min(5, |gaps|) <= i < 5 ==> r[i] == DefaultSteps[i - |gaps|])
  {
    var n := Min(5, |gaps|);
    var items := RemediationSteps(gaps[..n]);
    assert |items| == n;
    forall i | 0 <= i < n
      ensures FallbackSteps(gaps)[i] == RemediationStep(gaps[i])
    {
      assert items[i] == RemediationStep(gaps[..n][i]);
      if n < 5 {
        assert FallbackSteps(gaps)[..n][i] == items[i];
      }
    }
  }

  /** The opening sentences start with the category and the gap count and
      end with the score and the grade. */
  lemma OpeningLayout(documentType: string, gapCount: nat, severityText: string, score: int, grade: string)
    ensures StartsWith(SummaryOpening(documentType, gapCount, severityText, score, grade),
                       "The audit of the " + documentType + " document identified "
                       + IntToString(gapCount) + " compliance gaps (")
    ensures EndsWith(SummaryOpening(documentType, gapCount, severityText, score, grade),
                     "The overall compliance score is " + IntToString(score) + "/100 (Grade: " + grade + "). ")
  {
    ChainLayout("The audit of the ", documentType, " document identified ", IntToString(gapCount),
                " compliance gaps (", severityText, " severity). ",
                "The overall compliance score is ", IntToString(score), "/100 (Grade: ", grade, "). ");
  }

  /** Where the pieces of a three-part concatenation sit. */
  lemma ThreeParts(a: string, b: string, c: string)
    ensures StartsWith(a + b + c, a)
    ensures OccursAt(a + b + c, b, |a|)
    ensures EndsWith(a + b + c, c)
  {
    assert (a + b + c)[..|a|] == a;
    assert (a + b + c)[|a|..|a| + |b|] == b;
    assert (a + b + c)[|a| + |b|..] == c;
  }

  /** In a chain of twelve pieces, the first five form a prefix and the
      last five a suffix. */
  lemma ChainLayout(p1: string, p2: string, p3: string, p4: string, p5: string, p6: string,
                    p7: string, p8: string, p9: string, p10: string, p11: string, p12: string)
    ensures StartsWith(p1 + p2 + p3 + p4 + p5 + p6 + p7 + p8 + p9 + p10 + p11 + p12,
                       p1 + p2 + p3 + p4 + p5)
    ensures EndsWith(p1 + p2 + p3 + p4 + p5 + p6 + p7 + p8 + p9 + p10 + p11 + p12,
                     p8 + p9 + p10 + p11 + p12)
  {
    var head := p1 + p2 + p3 + p4 + p5;
    var middle := p6 + p7;
    var tail := p8 + p9 + p10 + p11 + p12;
    assert p1 + p2 + p3 + p4 + p5 + p6 + p7 + p8 + p9 + p10 + p11 + p12 == head + middle + tail;
    ThreeParts(head, middle, tail);
  }

  /** A prefix of the first part is a prefix of the whole, and a suffix of
      the first part occurs in the whole. */
  lemma FirstPartFacts(first: string, second: string, prefix: string, suffix: string)
    requires StartsWith(first, prefix) && EndsWith(first, suffix)
    ensures StartsWith(first + second, prefix)
    ensures Contains(first + second, suffix)
  {
    assert (first + second)[..|prefix|] == first[..|prefix|];
    var k := |first| - |suffix|;
    assert (first + second)[k..k + |suffix|] == first[k..];
    assert OccursAt(first + second, suffix, k);
  }

  /** The fallback summary opens with the category and the number of gaps,
      and names the score and the grade. */
  lemma FallbackSummaryMentions(score: int, grade: string, gaps: seq<GapDict>, documentType: string)
    ensures StartsWith(FallbackSummary(score, grade, gaps, documentType),
                       "The audit of the " + documentType + " document identified "
                       + IntToString(|gaps|) + " compliance gaps (")
    ensures Contains(FallbackSummary(score, grade, gaps, documentType),
                     "The overall compliance score is " + IntToString(score) + "/100 (Grade: " + grade + "). ")
  {
    var severityText := SeverityText(SeverityParts(CountSeverity(gaps, "critical"), CountSeverity(gaps, "high"),
                                                   CountSeverity(gaps, "medium")));
    OpeningLayout(documentType, |gaps|, severityText, score, grade);
    FirstPartFacts(SummaryOpening(documentType, |gaps|, severityText, score, grade), SummaryClosing(gaps),
                   "The audit of the " + documentType + " document identified "
                   + IntToString(|gaps|) + " compliance gaps (",
                   "The overall compliance score is " + IntToString(score) + "/100 (Grade: " + grade + "). ");
  }

  /** When some gap is critical, the fallback summary closes on the
      lower-cased title of the first critical gap. */
  lemma FallbackSummaryClosesOnCritical(score: int, grade: string, gaps: seq<GapDict>, documentType: string)
    requires CountSeverity(gaps, "critical") > 0
    ensures EndsWith(FallbackSummary(score, grade, gaps, documentType),
                     "The most critical finding involves "
                     + Lower(gaps[FirstWithSeverity(gaps, "critical")].title) + ". "
                     + "Immediate remediation is required for critical findings before the next reporting cycle.")
  {
    var severityText := SeverityText(SeverityParts(CountSeverity(gaps, "critical"), CountSeverity(gaps, "high"),
                                                   CountSeverity(gaps, "medium")));
    var opening := SummaryOpening(documentType, |gaps|, severityText, score, grade);
    var closing := SummaryClosing(gaps);
    assert (opening + closing)[|opening|..] == closing;
  }

  /** The severity phrase list is empty exactly when no gap is critical,
      high or medium, which is when the summary says "various". */
  lemma SeverityPartsEmpty(gaps: seq<GapDict>)
    ensures SeverityParts(CountSeverity(gaps, "critical"), CountSeverity(gaps, "high"),
                          CountSeverity(gaps, "medium")) == []
            <==> forall i :: 0 <= i < |gaps| ==> gaps[i].severity !in {"critical", "high", "medium"}
  {
    var c, h, m := CountSeverity(gaps, "critical"), CountSeverity(gaps, "high"), CountSeverity(gaps, "medium");
    if c > 0 {
      var i := FirstWithSeverity(gaps, "critical");
    } else if h > 0 {
      var i := FirstWithSeverity(gaps, "high");
    } else if m > 0 {
      var i := FirstWithSeverity(gaps, "medium");
    } else {
      forall i | 0 <= i < |gaps|
        ensures gaps[i].severity !in {"critical", "high", "medium"}
      {
        CountPositive(gaps, i, gaps[i].severity);
      }
    }
  }

  /** A gap with a label makes that label's count positive. */
  lemma {:induction false} CountPositive(gaps: seq<GapDict>, i: nat, severity: string)
    requires i < |gaps| && gaps[i].severity == severity
    ensures CountSeverity(gaps, severity) > 0
  {
    if i > 0 {
      CountPositive(gaps[1..], i - 1, severity);
    }
  }

  // ---------------------------------------------------------------------
  // Live or fallback
  // ---------------------------------------------------------------------

  /** A JSON object decoded from a text reply; a key it lacks is `None`. */
  datatype ReportJson = ReportJson(remediation: Option<seq<string>>, executiveSummary: Option<string>)

  /** The generation backend's `final_output`. */
  datatype ReportOutput =
    | NoReportOutput
      // the attribute is missing or falsy
    | StructuredReport(remediation: seq<string>, executiveSummary: string)
      // an instance of the structured output class
    | ReportText(text: string, decoded: Option<ReportJson>)
      // anything else; `decoded` is `json.loads` of its text, `None` when that
      // fails or yields something other than an object; empty text is falsy
      // and is read like a missing output

  /** What the backend call did: raised, or returned an output. */
  datatype ReportReply = ReportRaised | ReportReturned(output: ReportOutput)

  /** The remediation list and summary the live branch reads out of a reply,
      before they are checked. */
  function LiveFields(output: ReportOutput): ReportBody {
    match output
    case NoReportOutput => ReportBody([], "")
    case StructuredReport(r, s) => ReportBody(r, s)
    case ReportText(_, None) => ReportBody([], "")
    case ReportText(text, Some(j)) =>
      if text == "" then ReportBody([], "")
      else ReportBody(j.remediation.GetOr([]), j.executiveSummary.GetOr(""))
  }

  /** The live report body when the backend is configured and its reply has
      both a non-empty summary and a non-empty remediation list; `None` sends
      the caller to the fallback. */
  function LiveBody(apiKeySet: bool, reply: ReportReply): Option<ReportBody> {
    if !apiKeySet then None
    else match reply
      case ReportRaised => None
      case ReportReturned(output) =>
        var fields := LiveFields(output);
        if fields.executiveSummary == "" || fields.remediation == [] then None
        else Some(ReportBody(EnsureFive(fields.remediation), fields.executiveSummary))
  }

  /** The live result is taken exactly when the key is set, the call returned,
      and both fields it read are non-empty; it then keeps the summary and
      normalises the list. */
  lemma LiveBodyAccepted(apiKeySet: bool, reply: ReportReply)
    ensures LiveBody(apiKeySet, reply).Some? <==>
              apiKeySet && reply.ReportReturned?
              && LiveFields(reply.output).executiveSummary != ""
              && LiveFields(reply.output).remediation != []
    ensures LiveBody(apiKeySet, reply).Some? ==>
              LiveBody(apiKeySet, reply).value.executiveSummary == LiveFields(reply.output).executiveSummary
              && LiveBody(apiKeySet, reply).value.remediation == EnsureFive(LiveFields(reply.output).remediation)
    ensures reply.ReportReturned? && reply.output.ReportText? && reply.output.text == "" ==>
              LiveBody(apiKeySet, reply).None?
  {
  }

  /** The relative URL under which the rendered report is served. */
  function ReportUrl(auditId: string): string {
    "/api/files/report_" + auditId + ".pdf"
  }

  datatype Report = Report(
    score: int,
    grade: string,
    remediation: seq<string>,
    executiveSummary: string,
    reportPdfUrl: string)

  /** The report `generate_report` returns for these inputs. */
  function ReportOf(auditId: string, gaps: seq<GapDict>, documentType: string,
                    apiKeySet: bool, reply: ReportReply): (r: Report)
    ensures r.score == Score(gaps) && r.grade == Grade(r.score)
    ensures |r.remediation| == 5
    ensures r.reportPdfUrl == ReportUrl(auditId)
  {
    var score := Score(gaps);
    var grade := Grade(score);
    var body := match LiveBody(apiKeySet, reply)
                case Some(live) => live
                case None => FallbackBody(score, grade, gaps, documentType);
    Report(score, grade, body.remediation, body.executiveSummary, ReportUrl(auditId))
  }

  /** Every path: score and grade from the gaps, five remediation steps, the
      id-derived URL; the live body when it is accepted, else the fallback body
      with the same score and grade. */
  lemma ReportOfShape(auditId: string, gaps: seq<GapDict>, documentType: string,
                      apiKeySet: bool, reply: ReportReply)
    ensures var r := ReportOf(auditId, gaps, documentType, apiKeySet, reply);
            && r.score == Score(gaps) && r.grade == Grade(Score(gaps))
            && |r.remediation| == 5
            && r.reportPdfUrl == "/api/files/report_" + auditId + ".pdf"
            && (LiveBody(apiKeySet, reply).Some? ==>
                  ReportBody(r.remediation, r.executiveSummary) == LiveBody(apiKeySet, reply).value)
            && (LiveBody(apiKeySet, reply).None? ==>
                  ReportBody(r.remediation, r.executiveSummary) == FallbackBody(r.score, r.grade, gaps, documentType))
            && (!apiKeySet ==> ReportBody(r.remediation, r.executiveSummary) == FallbackBody(r.score, r.grade, gaps, documentType))
  {
  }

  /** `generate_report` without the PDF rendering: the report dictionary is
      filled in place, field by field. */
  method GenerateReport(auditId: string, documentName: string, documentType: string,
                        gaps: seq<GapDict>, apiKeySet: bool, reply: ReportReply)
    returns (report: Report)
    ensures report == ReportOf(auditId, gaps, documentType, apiKeySet, reply)
  {
    var score := Score(gaps);
    var grade := Grade(score);
    var reportPdfUrl := "/api/files/" + ("report_" + auditId + ".pdf");
    assert reportPdfUrl == ReportUrl(auditId);

    if !apiKeySet {
      var body := FallbackReport(score, grade, gaps, documentType);
      return Report(score, grade, body.remediation, body.executiveSummary, reportPdfUrl);
    }

    var accepted := false;
    if reply.ReportReturned? {
      report := Report(score, grade, [], "", reportPdfUrl);
      match reply.output {
        case NoReportOutput =>
        case StructuredReport(r, s) =>
          report := report.(remediation := r);
          report := report.(executiveSummary := s);
        case ReportText(text, decoded) =>
          if text != "" && decoded.Some? {
            report := report.(remediation := decoded.value.remediation.GetOr([]));
            report := report.(executiveSummary := decoded.value.executiveSummary.GetOr(""));
          }
      }
      assert ReportBody(report.remediation, report.executiveSummary) == LiveFields(reply.output);
      accepted := report.executiveSummary != "" && report.remediation != [];
      if accepted {
        report := report.(remediation := EnsureFive(report.remediation));
        assert LiveBody(apiKeySet, reply) == Some(ReportBody(report.remediation, report.executiveSummary));
      } else {
        assert LiveBody(apiKeySet, reply).None?;
      }
    }
    if !accepted {
      var body := FallbackReport(score, grade, gaps, documentType);
      report := Report(score, grade, body.remediation, body.executiveSummary, reportPdfUrl);
    }
  }

  /** One critical, one high and one
      medium gap score 74, grade C, and the first fallback step addresses the
      critical gap within 14 days. */
  lemma ThreeGapExample(critical: GapDict, high: GapDict, medium: GapDict)
    requires critical.severity == "critical" && high.severity == "high" && medium.severity == "medium"
    ensures Score([critical, high, medium]) == 74
    ensures Grade(Score([critical, high, medium])) == "C"
    ensures FallbackSteps([critical, high, medium])[0]
            == "Address \"" + critical.title + "\" " + "within 14 days"
               + " by reviewing compliance with " + critical.regulation + "."
  {
    var gaps := [critical, high, medium];
    assert gaps[1..] == [high, medium];
    assert gaps[1..][1..] == [medium];
    assert gaps[1..][1..][1..] == [];
    assert Penalty([medium]) == 3;
    assert Penalty([high, medium]) == 11;
    assert Penalty(gaps) == 26;
    FallbackRemediation(gaps);
    assert FallbackSteps(gaps)[0] == RemediationStep(critical);
    assert Timeframe(critical.severity) == "within 14 days";
  }

  /** With no gaps the fallback remediation is exactly the five defaults. */
  lemma NoGapFallback()
    ensures FallbackSteps([]) == DefaultSteps
  {
  }
}
