/**
 * `generateSummary` (src/utils/healthAnalyzer.js): the summary is built
 * sentence by sentence with `+=`; which sentences appear depends on the
 * critical and attention counts and on the risk label. The emoji at the head
 * of the sentences are written as code points.
 */
module Summary {
  import opened JsText
  import opened Extraction
  import opened Risk

  function Header(total: nat): string {
    "Lab Report Analysis: " + NatToString(total) + " parameters analyzed. "
  }

  function CriticalLine(critical: nat): string {
    "\U{1F6A8} " + NatToString(critical) + " CRITICAL values requiring immediate medical attention. "
  }

  function AttentionLine(abnormal: nat): string {
    "\U{26A0}\U{FE0F} " + NatToString(abnormal) + " values outside normal range need attention. "
  }

  /** The normal count is printed as an integer: it is `total - critical - abnormal`. */
  function NormalLine(normal: int): string {
    "\U{2705} " + IntToString(normal) + " values within normal limits. "
  }

  const HighRiskLine: string :=
    "\n\n\U{1F6A8} " + "HIGH RISK: Multiple critical abnormalities detected. Seek immediate medical care and follow up regularly."
  const ModerateRiskLine: string :=
    "\n\n\U{26A0}\U{FE0F} " + "MODERATE RISK: Some concerning values found. Schedule an appointment with your healthcare provider soon."
  const MildConcernLine: string :=
    "\n\n\U{1F4CB} " + "MILD CONCERN: A few values need attention. Discuss with your healthcare provider at your next visit."
  const LowRiskLine: string :=
    "\n\n\U{2705} " + "LOW RISK: Most values are normal. Continue healthy lifestyle practices and regular monitoring."
  const UrgentLine: string :=
    "\n\n\U{26A1} " + "URGENT: Contact your healthcare provider immediately for critical values."
  const FollowUpLine: string :=
    "\n\n\U{1F4DE} " + "Follow up with your healthcare provider to discuss abnormal values and create a management plan."

  /** The risk paragraph: any label other than the three named ones reads as low risk. */
  function RiskLine(risk: string): string {
    if risk == "high" then HighRiskLine
    else if risk == "moderate" then ModerateRiskLine
    else if risk == "low-moderate" then MildConcernLine
    else LowRiskLine
  }

  /** The sentences of the summary, in the order they are appended. */
  function Sentences(total: nat, critical: nat, abnormal: nat, risk: string): seq<string> {
    CountLines(total, critical, abnormal) + [RiskLine(risk)] + ClosingLines(critical, abnormal)
  }

  /** The counting sentences. */
  function CountLines(total: nat, critical: nat, abnormal: nat): seq<string> {
    [Header(total)]
    + (if critical > 0 then [CriticalLine(critical)] else [])
    + (if abnormal > 0 then [AttentionLine(abnormal)] else [])
    + [NormalLine(total - critical - abnormal)]
  }

  /** The final advice. */
  function ClosingLines(critical: nat, abnormal: nat): seq<string> {
    if critical > 0 then [UrgentLine] else if abnormal > 0 then [FollowUpLine] else []
  }

  function Concat(parts: seq<string>): string
    decreases |parts|
  {
    if parts == [] then "" else Concat(parts[..|parts| - 1]) + parts[|parts| - 1]
  }

  lemma ConcatSnoc(parts: seq<string>, s: string)
    ensures Concat(parts + [s]) == Concat(parts) + s
  {
    assert (parts + [s])[..|parts|] == parts;
  }

  /** `generateSummary(parameters, criticalParams, abnormalParams, riskAssessment)`. */
  method GenerateSummary(parameters: seq<Parameter>, criticalParams: seq<Parameter>, abnormalParams: seq<Parameter>,
                         riskAssessment: RiskAssessment)
    returns (summary: string)
    ensures summary == Concat(Sentences(|parameters|, |criticalParams|, |abnormalParams|, riskAssessment.risk))
  {
    var total := |parameters|;
    var critical := |criticalParams|;
    var abnormal := |abnormalParams|;
    var normal := total - critical - abnormal;
    ghost var parts := [Header(total)];
    summary := Header(total);
    assert summary == Concat(parts) by {
      ConcatSnoc([], Header(total));
    }
    if critical > 0 {
      ConcatSnoc(parts, CriticalLine(critical));
      summary := summary + CriticalLine(critical);
      parts := parts + [CriticalLine(critical)];
    }
    if abnormal > 0 {
      ConcatSnoc(parts, AttentionLine(abnormal));
      summary := summary + AttentionLine(abnormal);
      parts := parts + [AttentionLine(abnormal)];
    }
    ConcatSnoc(parts, NormalLine(normal));
    summary := summary + NormalLine(normal);
    parts := parts + [NormalLine(normal)];
    assert parts == CountLines(total, critical, abnormal);
    var riskLine;
    if riskAssessment.risk == "high" {
      riskLine := HighRiskLine;
    } else if riskAssessment.risk == "moderate" {
      riskLine := ModerateRiskLine;
    } else if riskAssessment.risk == "low-moderate" {
      riskLine := MildConcernLine;
    } else {
      riskLine := LowRiskLine;
    }
    assert riskLine == RiskLine(riskAssessment.risk);
    ConcatSnoc(parts, riskLine);
    summary := summary + riskLine;
    parts := parts + [riskLine];
    ghost var opening := parts;
    if critical > 0 {
      ConcatSnoc(parts, UrgentLine);
      summary := summary + UrgentLine;
      parts := parts + [UrgentLine];
    } else if abnormal > 0 {
      ConcatSnoc(parts, FollowUpLine);
      summary := summary + FollowUpLine;
      parts := parts + [FollowUpLine];
    }
    assert parts == opening + ClosingLines(critical, abnormal);
  }

  // ---- What the summary says ----

  /** The first character of every sentence kind: they all differ, except that the
      four risk paragraphs and the two closing lines share the "\n\n" opening and
      differ at the third character. */
  lemma SentenceHeads(total: nat, critical: nat, abnormal: nat, normal: int)
    ensures Header(total)[0] == 'L'
    ensures CriticalLine(critical)[0] == '\U{1F6A8}'
    ensures AttentionLine(abnormal)[0] == '\U{26A0}'
    ensures NormalLine(normal)[0] == '\U{2705}'
  {
  }

  /** The heads of the closing lines and risk paragraphs: "\n\n" and a distinct emoji. */
  lemma ParagraphHeads(risk: string)
    ensures UrgentLine[0] == '\n' && UrgentLine[2] == '\U{26A1}'
    ensures FollowUpLine[0] == '\n' && FollowUpLine[2] == '\U{1F4DE}'
    ensures RiskLine(risk)[0] == '\n'
    ensures RiskLine(risk)[2] in {'\U{1F6A8}', '\U{26A0}', '\U{1F4CB}', '\U{2705}'}
  {
  }

  /** The counting sentences: the header first, the critical count exactly when
      there are critical values, the attention count exactly when there are
      attention values, always the normal count, and no closing line. */
  lemma CountLinesPresent(total: nat, critical: nat, abnormal: nat)
    ensures var s := CountLines(total, critical, abnormal);
            && s[0] == Header(total)
            && (CriticalLine(critical) in s <==> critical > 0)
            && (AttentionLine(abnormal) in s <==> abnormal > 0)
            && NormalLine(total - critical - abnormal) in s
            && UrgentLine !in s && FollowUpLine !in s
  {
    var h, c, a, n := Header(total), CriticalLine(critical), AttentionLine(abnormal), NormalLine(total - critical - abnormal);
    SentenceHeads(total, critical, abnormal, total - critical - abnormal);
    ParagraphHeads("");
    assert h[0] != c[0] && h[0] != a[0] && h[0] != n[0] && c[0] != a[0] && c[0] != n[0] && a[0] != n[0];
    assert UrgentLine[0] !in {h[0], c[0], a[0], n[0]} && FollowUpLine[0] !in {h[0], c[0], a[0], n[0]};
  }

  /** Which sentences the summary has: those of `CountLines`, the risk paragraph
      for the label, the urgent closing exactly when there are critical values,
      and the follow-up closing exactly when there are attention values but no
      critical ones. */
  lemma SentencesPresent(total: nat, critical: nat, abnormal: nat, risk: string)
    ensures var s := Sentences(total, critical, abnormal, risk);
            && s[0] == Header(total)
            && (CriticalLine(critical) in s <==> critical > 0)
            && (AttentionLine(abnormal) in s <==> abnormal > 0)
            && NormalLine(total - critical - abnormal) in s
            && RiskLine(risk) in s
            && (UrgentLine in s <==> critical > 0)
            && (FollowUpLine in s <==> critical == 0 && abnormal > 0)
  {
    var counts := CountLines(total, critical, abnormal);
    var closing := ClosingLines(critical, abnormal);
    CountLinesPresent(total, critical, abnormal);
    SentenceHeads(total, critical, abnormal, total - critical - abnormal);
    ParagraphHeads(risk);
    assert CriticalLine(critical) !in [RiskLine(risk)] + closing;
    assert AttentionLine(abnormal) !in [RiskLine(risk)] + closing;
    assert UrgentLine != RiskLine(risk) && FollowUpLine != RiskLine(risk);
    assert UrgentLine != FollowUpLine;
  }

  /** The summary opens with the header. */
  lemma {:induction false} ConcatStartsWith(parts: seq<string>)
    requires |parts| > 0
    ensures |parts[0]| <= |Concat(parts)| && Concat(parts)[..|parts[0]|] == parts[0]
    decreases |parts|
  {
    if |parts| > 1 {
      ConcatStartsWith(parts[..|parts| - 1]);
    } else {
      assert parts[..0] == [];
    }
  }

  lemma SummaryOpensWithHeader(total: nat, critical: nat, abnormal: nat, risk: string)
    ensures var summary := Concat(Sentences(total, critical, abnormal, risk));
            |Header(total)| <= |summary| && summary[..|Header(total)|] == Header(total)
  {
    ConcatStartsWith(Sentences(total, critical, abnormal, risk));
  }
}
