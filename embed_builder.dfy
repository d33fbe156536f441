/** The chat-side rendering of audits: text truncation to the field limit,
    colour and emoji lookups, and the result, detail and history embeds. An
    embed is an object whose field list and footer the builders fill in
    step by step. Date parsing and formatting is an input: a function that
    gives the formatted text, or nothing when the text does not parse. */
module EmbedBuilder {
  import opened Wrappers
  import opened Strings
  import opened AuditTypes

  /** The longest value an embed field may hold. */
  const FieldLimit: int := 1024

  /** `_truncate`: the text when it fits, else its first `limit - 3`
      characters followed by "...". */
  function Truncate(text: string, limit: int): (r: string)
    ensures |text| <= limit ==> r == text
    ensures |text| > limit && limit >= 3 ==> |r| == limit && r == text[..limit - 3] + "..."
    ensures limit >= 3 ==> |r| <= limit
  {
    if |text| <= limit then text else PyPrefix(text, limit - 3) + "..."
  }

  /** Truncating twice is truncating once. */
  lemma TruncateIdempotent(text: string, limit: int)
    requires limit >= 3
    ensures Truncate(Truncate(text, limit), limit) == Truncate(text, limit)
  {
  }

  /** `GRADE_COLORS.get(grade, 0xFF0000)`. */
  function GradeColor(grade: string): (c: int)
    ensures grade !in {"A", "B", "C", "D"} ==> c == 0xFF0000
  {
    if grade == "A" then 0x00FF00
    else if grade == "B" then 0x0099FF
    else if grade == "C" then 0xFFCC00
    else if grade == "D" then 0xFF9900
    else 0xFF0000
  }

  /** `SEVERITY_EMOJI.get(severity, white circle)`. */
  function SeverityEmoji(severity: string): string {
    if severity == "critical" then "\U{1F534}"
    else if severity == "high" then "\U{1F7E0}"
    else if severity == "medium" then "\U{1F7E1}"
    else if severity == "low" then "\U{1F7E2}"
    else "\U{26AA}"
  }

  /** The first `n` elements, or all of a shorter sequence: `s[:n]`. */
  function FirstN<T>(s: seq<T>, n: nat): (r: seq<T>)
    ensures |r| == if |s| <= n then |s| else n
    ensures r == s[..|r|]
  {
    if |s| <= n then s else s[..n]
  }

  // ---------------------------------------------------------------------
  // The embed
  // ---------------------------------------------------------------------

  datatype EmbedField = EmbedField(name: string, value: string, inline: bool)

  class Embed {
    var title: string
    var description: string
    var color: int
    var fields: seq<EmbedField>
    var footer: Option<string>

    constructor(title: string, description: string, color: int)
      ensures this.title == title && this.description == description && this.color == color
      ensures fields == [] && footer == None
    {
      this.title := title;
      this.description := description;
      this.color := color;
      fields := [];
      footer := None;
    }

    /** `add_field`: one more field at the end. */
    method AddField(name: string, value: string, inline: bool)
      modifies this
      ensures fields == old(fields) + [EmbedField(name, value, inline)]
      ensures title == old(title) && description == old(description)
      ensures color == old(color) && footer == old(footer)
    {
      fields := fields + [EmbedField(name, value, inline)];
    }

    /** `set_footer`. */
    method SetFooter(text: string)
      modifies this
      ensures footer == Some(text)
      ensures title == old(title) && description == old(description)
      ensures color == old(color) && fields == old(fields)
    {
      footer := Some(text);
    }

    /** Assigning `description`. */
    method SetDescription(text: string)
      modifies this
      ensures description == text
      ensures title == old(title) && footer == old(footer)
      ensures color == old(color) && fields == old(fields)
    {
      description := text;
    }
  }

  // ---------------------------------------------------------------------
  // Result and detail embeds
  // ---------------------------------------------------------------------

  /** An audit as the bot receives it; the keys the builders read with a
      default may be missing. */
  datatype AuditData = AuditData(
    auditId: string,
    documentName: string,
    documentType: string,
    score: int,
    grade: Option<string>,
    executiveSummary: Option<string>,
    gaps: Option<seq<GapDict>>,
    remediation: Option<seq<string>>,
    timestamp: Option<string>)

  /** The grade shown, "F" when the audit has none. */
  function ShownGrade(data: AuditData): string {
    data.grade.GetOr("F")
  }

  /** The score and category fields every audit embed starts with. */
  function HeaderFields(data: AuditData): (r: seq<EmbedField>)
    ensures |r| == 2 && r[0].name == "Compliance Score" && r[0].inline && r[1].inline
    ensures StartsWith(r[0].value, "**" + IntToString(data.score) + "/100**")
    ensures r[1] == EmbedField("Document Type", data.documentType, true)
  {
    [ EmbedField("Compliance Score", "**" + IntToString(data.score) + "/100** (Grade **" + ShownGrade(data) + "**)", true),
      EmbedField("Document Type", data.documentType, true) ]
  }

  /** One gap as a field: its severity emoji and title, then its description
      and regulation, truncated to the field limit. */
  function GapField(gap: GapDict): (f: EmbedField)
    ensures |f.value| <= FieldLimit && !f.inline
  {
    EmbedField(SeverityEmoji(gap.severity) + " " + gap.title,
               Truncate(gap.description + "\n*" + gap.regulation + "*", FieldLimit), false)
  }

  function GapFields(gaps: seq<GapDict>): (r: seq<EmbedField>)
    ensures |r| == |gaps|
    ensures forall i :: 0 <= i < |gaps| ==> r[i] == GapField(gaps[i])
  {
    seq(|gaps|, i requires 0 <= i < |gaps| => GapField(gaps[i]))
  }

  /** The timestamp field: none for an empty timestamp, the formatted date
      when it parses, the raw text otherwise. */
  function TimestampFields(ts: string, format: string -> Option<string>): (r: seq<EmbedField>)
    ensures |r| == if ts == "" then 0 else 1
    ensures ts != "" ==> r[0].name == "Timestamp" && r[0].inline
    ensures ts != "" && format(ts).Some? ==> r[0].value == format(ts).value
    ensures ts != "" && format(ts).None? ==> r[0].value == ts
  {
    if ts == "" then []
    else match format(ts)
      case Some(formatted) => [EmbedField("Timestamp", formatted, true)]
      case None => [EmbedField("Timestamp", ts, true)]
  }

  /** Adds the score and category fields. */
  method AddHeaderFields(embed: Embed, data: AuditData)
    modifies embed
    ensures embed.fields == old(embed.fields) + HeaderFields(data)
    ensures embed.title == old(embed.title) && embed.description == old(embed.description)
    ensures embed.color == old(embed.color) && embed.footer == old(embed.footer)
  {
    var grade := data.grade.GetOr("F");
    embed.AddField("Compliance Score", "**" + IntToString(data.score) + "/100** (Grade **" + grade + "**)", true);
    embed.AddField("Document Type", data.documentType, true);
  }

  /** Adds one field per gap, in order. */
  method AddGapFields(embed: Embed, gaps: seq<GapDict>)
    modifies embed
    ensures embed.fields == old(embed.fields) + GapFields(gaps)
    ensures embed.title == old(embed.title) && embed.description == old(embed.description)
    ensures embed.color == old(embed.color) && embed.footer == old(embed.footer)
  {
    var i := 0;
    while i < |gaps|
      invariant 0 <= i <= |gaps|
      invariant embed.fields == old(embed.fields) + GapFields(gaps[..i])
      invariant embed.title == old(embed.title) && embed.description == old(embed.description)
      invariant embed.color == old(embed.color) && embed.footer == old(embed.footer)
    {
      var gap := gaps[i];
      embed.AddField(SeverityEmoji(gap.severity) + " " + gap.title,
                     Truncate(gap.description + "\n*" + gap.regulation + "*", FieldLimit), false);
      assert GapFields(gaps[..i + 1]) == GapFields(gaps[..i]) + [GapField(gaps[i])];
      i := i + 1;
    }
    assert gaps[..i] == gaps;
  }

  /** Adds the timestamp field, if any. */
  method AddTimestamp(embed: Embed, ts: string, format: string -> Option<string>)
    modifies embed
    ensures embed.fields == old(embed.fields) + TimestampFields(ts, format)
    ensures embed.title == old(embed.title) && embed.description == old(embed.description)
    ensures embed.color == old(embed.color) && embed.footer == old(embed.footer)
  {
    if ts != "" {
      var formatted := format(ts);
      if formatted.Some? {
        embed.AddField("Timestamp", formatted.value, true);
      } else {
        embed.AddField("Timestamp", ts, true);
      }
    }
  }

  /** The fields of the result embed: header, the first three gaps, the
      timestamp. */
  function ResultFields(data: AuditData, format: string -> Option<string>): seq<EmbedField> {
    HeaderFields(data) + GapFields(FirstN(data.gaps.GetOr([]), 3))
    + TimestampFields(data.timestamp.GetOr(""), format)
  }

  /** The result embed shows at most three gaps: the first ones, in order,
      right after the two header fields. */
  lemma ResultShowsFirstThreeGaps(data: AuditData, format: string -> Option<string>)
    ensures var gaps := data.gaps.GetOr([]);
            var shown := if |gaps| <= 3 then |gaps| else 3;
            var fields := ResultFields(data, format);
            && |fields| == 2 + shown + (if data.timestamp.GetOr("") == "" then 0 else 1)
            && (forall i :: 0 <= i < shown ==> fields[2 + i] == GapField(gaps[i]))
  {
  }

  /** `build_audit_result_embed`. */
  method BuildAuditResultEmbed(data: AuditData, format: string -> Option<string>) returns (embed: Embed)
    ensures fresh(embed)
    ensures embed.title == "\U{1F4CA} Audit Complete: " + data.documentName
    ensures embed.description == data.executiveSummary.GetOr("")
    ensures embed.color == GradeColor(ShownGrade(data))
    ensures embed.fields == ResultFields(data, format)
    ensures embed.footer == Some("Audit ID: " + data.auditId)
  {
    var grade := data.grade.GetOr("F");
    var color := GradeColor(grade);
    embed := new Embed("\U{1F4CA} Audit Complete: " + data.documentName, data.executiveSummary.GetOr(""), color);
    AddHeaderFields(embed, data);
    var gaps := FirstN(data.gaps.GetOr([]), 3);
    AddGapFields(embed, gaps);
    assert embed.fields == HeaderFields(data) + GapFields(gaps);
    AddTimestamp(embed, data.timestamp.GetOr(""), format);
    assert embed.fields == ResultFields(data, format);
    embed.SetFooter("Audit ID: " + data.auditId);
  }

  /** A missing grade is shown as "F" in red. */
  lemma MissingGradeIsRedF(data: AuditData)
    requires data.grade.None?
    ensures ShownGrade(data) == "F" && GradeColor(ShownGrade(data)) == 0xFF0000
  {
  }

  /** One remediation line: `**n.** step`, numbered from 1. */
  function NumberedStep(i: nat, step: string): string {
    "**" + IntToString(i + 1) + ".** " + step
  }

  function NumberedSteps(steps: seq<string>): (r: seq<string>)
    ensures |r| == |steps|
    ensures forall i :: 0 <= i < |steps| ==> r[i] == NumberedStep(i, steps[i])
  {
    seq(|steps|, i requires 0 <= i < |steps| => NumberedStep(i, steps[i]))
  }

  /** The remediation field: none for an empty list. */
  function RemediationFields(steps: seq<string>): (r: seq<EmbedField>)
    ensures |r| == if steps == [] then 0 else 1
    ensures steps != [] ==> r[0].name == "Remediation Steps" && |r[0].value| <= FieldLimit
  {
    if steps == [] then []
    else [EmbedField("Remediation Steps", Truncate(Join("\n", NumberedSteps(steps)), FieldLimit), false)]
  }

  /** The fields of the detail embed: header, every gap, the numbered
      remediation, the timestamp. */
  function DetailFields(data: AuditData, format: string -> Option<string>): seq<EmbedField> {
    HeaderFields(data) + GapFields(data.gaps.GetOr([])) + RemediationFields(data.remediation.GetOr([]))
    + TimestampFields(data.timestamp.GetOr(""), format)
  }

  /** The detail embed shows every gap in order after the header, then one
      field for the remediation when there are steps and one for the
      timestamp when there is one. */
  lemma DetailShowsAllGaps(data: AuditData, format: string -> Option<string>)
    ensures var gaps := data.gaps.GetOr([]);
            var fields := DetailFields(data, format);
            && |fields| == 2 + |gaps| + (if data.remediation.GetOr([]) == [] then 0 else 1)
                           + (if data.timestamp.GetOr("") == "" then 0 else 1)
            && (forall i :: 0 <= i < |gaps| ==> fields[2 + i] == GapField(gaps[i]))
  {
    var gaps := data.gaps.GetOr([]);
    var gapFields := GapFields(gaps);
    var rest := RemediationFields(data.remediation.GetOr([])) + TimestampFields(data.timestamp.GetOr(""), format);
    var fields := HeaderFields(data) + gapFields + rest;
    assert DetailFields(data, format) == fields;
    forall i | 0 <= i < |gaps|
      ensures fields[2 + i] == GapField(gaps[i])
    {
      assert fields[2 + i] == gapFields[i];
    }
  }

  /** The remediation field comes right after the gaps. */
  lemma DetailRemediationFollowsGaps(data: AuditData, format: string -> Option<string>)
    requires data.remediation.GetOr([]) != []
    ensures var n := |data.gaps.GetOr([])|;
            var fields := DetailFields(data, format);
            2 + n < |fields| && fields[2 + n].name == "Remediation Steps"
  {
    var gapFields := GapFields(data.gaps.GetOr([]));
    var remediation := RemediationFields(data.remediation.GetOr([]));
    var rest := TimestampFields(data.timestamp.GetOr(""), format);
    assert DetailFields(data, format) == HeaderFields(data) + gapFields + remediation + rest;
  }

  /** The remediation text lists the steps in order, the first numbered 1. */
  lemma RemediationNumberedFromOne(steps: seq<string>)
    requires steps != []
    ensures StartsWith(Join("\n", NumberedSteps(steps)), "**1.** " + steps[0])
  {
    assert IntToString(1) == "1";
    JoinStartsWithFirst("\n", NumberedSteps(steps));
  }

  /** `build_detail_embed`. */
  method BuildDetailEmbed(data: AuditData, format: string -> Option<string>) returns (embed: Embed)
    ensures fresh(embed)
    ensures embed.title == "\U{1F4CA} Audit Detail: " + data.documentName
    ensures embed.description == data.executiveSummary.GetOr("")
    ensures embed.color == GradeColor(ShownGrade(data))
    ensures embed.fields == DetailFields(data, format)
    ensures embed.footer == Some("Audit ID: " + data.auditId)
  {
    var grade := data.grade.GetOr("F");
    embed := new Embed("\U{1F4CA} Audit Detail: " + data.documentName, data.executiveSummary.GetOr(""),
                       GradeColor(grade));
    AddHeaderFields(embed, data);
    AddGapFields(embed, data.gaps.GetOr([]));
    var remediation := data.remediation.GetOr([]);
    if remediation != [] {
      var steps := NumberedSteps(remediation);
      embed.AddField("Remediation Steps", Truncate(Join("\n", steps), FieldLimit), false);
    }
    assert embed.fields == HeaderFields(data) + GapFields(data.gaps.GetOr([])) + RemediationFields(remediation);
    AddTimestamp(embed, data.timestamp.GetOr(""), format);
    assert embed.fields == DetailFields(data, format);
    embed.SetFooter("Audit ID: " + data.auditId);
  }

  // ---------------------------------------------------------------------
  // History embed
  // ---------------------------------------------------------------------

  /** A history entry as the bot receives it. */
  datatype HistoryItem = HistoryItem(
    auditId: string,
    documentName: string,
    score: int,
    grade: Option<string>,
    timestamp: Option<string>)

  /** The emoji bucket of a grade: critical for D and F, medium for C, low
      for anything else. */
  function GradeBucket(grade: string): (b: string)
    ensures b == "critical" <==> grade in {"D", "F"}
    ensures b == "medium" <==> grade == "C"
    ensures b == "low" <==> grade !in {"C", "D", "F"}
  {
    if grade == "D" || grade == "F" then "critical" else if grade == "C" then "medium" else "low"
  }

  /** The date shown: empty without a timestamp, the formatted date when it
      parses, else its first ten characters. */
  function DateText(ts: string, format: string -> Option<string>): (d: string)
    ensures ts == "" ==> d == ""
    ensures ts != "" && format(ts).Some? ==> d == format(ts).value
    ensures ts != "" && format(ts).None? ==> d == PyPrefix(ts, 10) && |d| <= 10
  {
    if ts == "" then ""
    else match format(ts)
      case Some(formatted) => formatted
      case None => PyPrefix(ts, 10)
  }

  /** One history line. */
  function HistoryLine(item: HistoryItem, format: string -> Option<string>): string {
    var grade := item.grade.GetOr("?");
    SeverityEmoji(GradeBucket(grade)) + " **" + item.documentName + "** \U{2014} "
    + IntToString(item.score) + "/100 (" + grade + ") \U{2014} "
    + DateText(item.timestamp.GetOr(""), format) + "\n`" + item.auditId + "`"
  }

  /** The line builder for a given date formatter, as a value. */
  function LineOf(format: string -> Option<string>): HistoryItem -> string {
    item => HistoryLine(item, format)
  }

  /** `f` applied to every element, in order. */
  function MapSeq<T, U>(xs: seq<T>, f: T -> U): (r: seq<U>)
    ensures |r| == |xs|
    ensures forall i :: 0 <= i < |xs| ==> r[i] == f(xs[i])
  {
    seq(|xs|, i requires 0 <= i < |xs| => f(xs[i]))
  }

  /** Mapping one more element appends its image. */
  lemma MapSnoc<T, U>(xs: seq<T>, i: nat, f: T -> U)
    requires i < |xs|
    ensures MapSeq(xs[..i + 1], f) == MapSeq(xs[..i], f) + [f(xs[i])]
  {
  }

  function HistoryLines(items: seq<HistoryItem>, format: string -> Option<string>): (r: seq<string>)
    ensures |r| == |items|
    ensures forall i :: 0 <= i < |items| ==> r[i] == HistoryLine(items[i], format)
  {
    MapSeq(items, LineOf(format))
  }

  /** The footer: how many of how many audits are shown. */
  function HistoryFooter(total: nat): (f: string)
    ensures total > 10 ==> f == "Showing 10 most recent of " + IntToString(total) + " audits"
    ensures total <= 10 ==> f == IntToString(total) + " audit(s) total"
  {
    if total > 10 then "Showing 10 most recent of " + IntToString(total) + " audits"
    else IntToString(total) + " audit(s) total"
  }

  /** The loop of `build_history_embed` that collects one line per audit. */
  method CollectHistoryLines(display: seq<HistoryItem>, format: string -> Option<string>)
    returns (lines: seq<string>)
    ensures lines == HistoryLines(display, format)
  {
    lines := [];
    var i := 0;
    while i < |display|
      invariant 0 <= i <= |display|
      invariant lines == MapSeq(display[..i], LineOf(format))
    {
      lines := lines + [HistoryLine(display[i], format)];
      MapSnoc(display, i, LineOf(format));
      i := i + 1;
    }
    assert display[..i] == display;
  }

  /** `build_history_embed`: one line per audit for the first ten, joined by
      blank lines, and the footer. */
  method BuildHistoryEmbed(audits: seq<HistoryItem>, format: string -> Option<string>) returns (embed: Embed)
    ensures fresh(embed)
    ensures embed.title == "\U{1F4DC} Audit History" && embed.color == 0x5865F2
    ensures embed.fields == []
    ensures embed.description == Join("\n\n", HistoryLines(FirstN(audits, 10), format))
    ensures embed.footer == Some(HistoryFooter(|audits|))
  {
    var lines := CollectHistoryLines(FirstN(audits, 10), format);
    embed := new Embed("\U{1F4DC} Audit History", "", 0x5865F2);
    embed.SetDescription(Join("\n\n", lines));
    if |audits| > 10 {
      embed.SetFooter("Showing 10 most recent of " + IntToString(|audits|) + " audits");
    } else {
      embed.SetFooter(IntToString(|audits|) + " audit(s) total");
    }
  }

  /** The history shows at most ten audits, the first ones in order. */
  lemma HistoryShowsFirstTen(audits: seq<HistoryItem>, format: string -> Option<string>)
    ensures var lines := HistoryLines(FirstN(audits, 10), format);
            && |lines| <= 10
            && |lines| == (if |audits| <= 10 then |audits| else 10)
            && forall i :: 0 <= i < |lines| ==> lines[i] == HistoryLine(audits[i], format)
  {
  }

  const ProcessingDescription: string :=
    "Your document is being analyzed by our compliance pipeline.\nThis may take up to 2 minutes."

  /** `build_processing_embed`. */
  method BuildProcessingEmbed() returns (embed: Embed)
    ensures fresh(embed) && embed.fields == [] && embed.footer == None
    ensures embed.title == "\U{23F3} Processing Your Audit..." && embed.color == 0x5865F2
    ensures embed.description == ProcessingDescription
  {
    embed := new Embed("\U{23F3} Processing Your Audit...", ProcessingDescription, 0x5865F2);
  }

  /** `build_error_embed`: the message as the description, in red. */
  method BuildErrorEmbed(errorMessage: string) returns (embed: Embed)
    ensures fresh(embed) && embed.fields == [] && embed.footer == None
    ensures embed.title == "\U{274C} Error" && embed.description == errorMessage && embed.color == 0xFF0000
  {
    embed := new Embed("\U{274C} Error", errorMessage, 0xFF0000);
  }
}
