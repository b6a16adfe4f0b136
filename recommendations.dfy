/**
 * `generateAIRecommendations` with `getCriticalMessage` and
 * `getAbnormalMessage` (src/utils/healthAnalyzer.js): the parameters are
 * sorted into critical, attention and normal groups by their status string,
 * each group becomes a list of entries with a message, and the bundle adds the
 * category tips, the overall risk and the summary.
 */
module Recommendations {
  import opened Wrappers
  import opened JsText
  import opened Catalog
  import opened Extraction
  import opened Classification
  import opened Risk
  import opened Summary
  import opened CategoryTips

  // ---- Sorting by status ----

  /** The three filters of the bundle, and what none of them takes. */
  datatype Bucket = CriticalBucket | AttentionBucket | NormalBucket | Unsorted

  /** `p.status && p.status.includes('critical')`, `['high', 'low'].includes(p.status)`
      and `p.status === 'normal'`. The empty status is falsy and contains no
      "critical" either. */
  predicate InBucket(b: Bucket, status: string) {
    match b
    case CriticalBucket => Contains(status, "critical")
    case AttentionBucket => status == "high" || status == "low"
    case NormalBucket => status == "normal"
    case Unsorted =>
      !Contains(status, "critical") && status != "high" && status != "low" && status != "normal"
  }

  /** `parameters.filter(...)` for one bucket. */
  function Select(b: Bucket, ps: seq<Parameter>): seq<Parameter>
    decreases |ps|
  {
    if ps == [] then []
    else Select(b, ps[..|ps| - 1]) + (if InBucket(b, ps[|ps| - 1].status) then [ps[|ps| - 1]] else [])
  }

  // ---- Messages ----

  /** `messages[key]` of `getCriticalMessage`: the message for a known key, `undefined` otherwise. */
  function CriticalEntry(key: string): Option<string> {
    if key == "glucose" then
      Some("Extremely abnormal glucose levels require immediate medical attention. Contact your doctor urgently.")
    else if key == "cholesterol" then
      Some("Very high cholesterol levels increase cardiovascular risk significantly. Immediate medical consultation needed.")
    else if key == "hemoglobin" || key == "hb" then
      Some("Severe anemia or polycythemia detected. Immediate medical evaluation required.")
    else if key == "creatinine" then
      Some("Kidney function severely impaired. Urgent nephrology consultation required.")
    else if key == "alt" || key == "ast" then
      Some("Severe liver enzyme elevation detected. Immediate medical evaluation needed.")
    else if key == "bilirubin" then
      Some("Severe liver dysfunction indicated. Immediate medical attention required.")
    else if key == "wbc" then
      Some("Abnormal white blood cell count may indicate serious infection or blood disorder.")
    else if key == "platelets" then
      Some("Dangerous platelet levels detected. Risk of bleeding or clotting issues.")
    else None
  }

  /** `highMessages[key]`. */
  function HighEntry(key: string): Option<string> {
    if key == "glucose" then
      Some("Elevated glucose suggests diabetes risk. Monitor diet, exercise regularly, and follow up with healthcare provider.")
    else if key == "cholesterol" then
      Some("High cholesterol increases heart disease risk. Consider dietary changes and regular exercise.")
    else if key == "triglycerides" then
      Some("High triglycerides increase cardiovascular risk. Reduce refined carbs and alcohol intake.")
    else if key == "alt" || key == "ast" then
      Some("Elevated liver enzymes may indicate liver stress. Consider lifestyle modifications and follow-up testing.")
    else if key == "creatinine" then
      Some("Elevated creatinine suggests kidney function decline. Monitor hydration and avoid nephrotoxic substances.")
    else if key == "bilirubin" then
      Some("Elevated bilirubin may indicate liver or blood issues. Follow up with healthcare provider.")
    else None
  }

  /** `lowMessages[key]`. */
  function LowEntry(key: string): Option<string> {
    if key == "hemoglobin" || key == "hb" then
      Some("Low hemoglobin suggests anemia. Consider iron-rich foods, supplements, and identify underlying cause.")
    else if key == "hdl" then
      Some("Low HDL cholesterol reduces cardiovascular protection. Increase exercise and consume healthy fats.")
    else if key == "platelets" then
      Some("Low platelet count may increase bleeding risk. Avoid activities with injury risk and seek medical advice.")
    else None
  }

  /** The fixed ends of the fallback messages. */
  const CriticalFallbackTail: string := " levels detected. Seek immediate medical attention."
  const HighFallbackTail: string := " is elevated. Discuss with your healthcare provider for proper management."
  const LowFallbackTail: string := " is below normal. Consult your healthcare provider for evaluation and treatment options."

  /** `messages[key] || fallback` with `key = name.toLowerCase()`: every table
      message is a non-empty string, so the fallback is taken exactly when the
      key is missing. */
  function TableOr(entry: Option<string>, fallback: string): string {
    if entry.Some? then entry.value else fallback
  }

  /** `getCriticalMessage(param)`. */
  function CriticalMessage(name: string): string {
    TableOr(CriticalEntry(Lower(name)),
            "Critical " + name + CriticalFallbackTail)
  }

  /** `getAbnormalMessage(param)`: the high table for status `high`, the low
      table for any other status. */
  function AbnormalMessage(name: string, status: string): string {
    if status == "high" then
      TableOr(HighEntry(Lower(name)),
              Capitalize(name) + HighFallbackTail)
    else
      TableOr(LowEntry(Lower(name)),
              Capitalize(name) + LowFallbackTail)
  }

  // ---- The bundle ----

  /** An entry of `critical` or `attention`. */
  datatype Alert = Alert(parameter: string, value: real, unit: string, status: string,
                         message: string, urgency: string, category: string)

  /** An entry of `normal`. */
  datatype NormalNote = NormalNote(parameter: string, value: real, unit: string, message: string, category: string)

  datatype Bundle = Bundle(critical: seq<Alert>, attention: seq<Alert>, normal: seq<NormalNote>,
                           tips: seq<TipGroup>, summary: string, overallRisk: string)

  const NoParametersSummary: string :=
    "No health parameters were found in this report. " + "Please ensure the document contains lab test results with numerical values."

  function CriticalAlert(p: Parameter): Alert {
    Alert(p.name, p.value, p.unit, p.status, CriticalMessage(p.name), "immediate", p.category)
  }

  function AttentionAlert(p: Parameter): Alert {
    Alert(p.name, p.value, p.unit, p.status, AbnormalMessage(p.name, p.status), "moderate", p.category)
  }

  function NoteOf(p: Parameter): NormalNote {
    NormalNote(p.name, p.value, p.unit, Capitalize(p.name) + " is within normal range", p.category)
  }

  /** The list a `forEach` that pushes one entry per element builds. */
  function Mapped<T>(f: Parameter -> T, ps: seq<Parameter>): seq<T> {
    seq(|ps|, i requires 0 <= i < |ps| => f(ps[i]))
  }

  /** One more push appends the entry of the next element. */
  lemma MappedSnoc<T>(f: Parameter -> T, ps: seq<Parameter>, i: nat)
    requires i < |ps|
    ensures Mapped(f, ps[..i + 1]) == Mapped(f, ps[..i]) + [f(ps[i])]
  {
  }

  function CriticalAlerts(ps: seq<Parameter>): seq<Alert> {
    Mapped(CriticalAlert, ps)
  }

  function AttentionAlerts(ps: seq<Parameter>): seq<Alert> {
    Mapped(AttentionAlert, ps)
  }

  function Notes(ps: seq<Parameter>): seq<NormalNote> {
    Mapped(NoteOf, ps)
  }

  /** The bundle `generateAIRecommendations(parameters, extractedText)` returns. */
  function Recommend(ps: seq<Parameter>): Bundle {
    if ps == [] then Bundle([], [], [], [], NoParametersSummary, "low")
    else
      var c := Select(CriticalBucket, ps);
      var a := Select(AttentionBucket, ps);
      var n := Select(NormalBucket, ps);
      var risk := Assess(|c|, |a|, |n|);
      Bundle(CriticalAlerts(c), AttentionAlerts(a), Notes(n),
             TipsFor(Categories(ps)),
             Concat(Sentences(|ps|, |c|, |a|, risk.risk)),
             risk.risk)
  }

  /** `generateAIRecommendations(parameters, extractedText)`. The text is not
      used by the analyzer. */
  method GenerateAIRecommendations(parameters: seq<Parameter>, extractedText: string)
    returns (recommendations: Bundle)
    ensures recommendations == Recommend(parameters)
  {
    if |parameters| == 0 {
      return Bundle([], [], [], [], NoParametersSummary, "low");
    }
    var criticalParams := Select(CriticalBucket, parameters);
    var abnormalParams := Select(AttentionBucket, parameters);
    var normalParams := Select(NormalBucket, parameters);

    var critical := PushCritical(criticalParams);
    var attention := PushAttention(abnormalParams);
    var normal := PushNormal(normalParams);
    var tips := GenerateCategoryTips(parameters);
    var riskAssessment := CalculateOverallRisk(criticalParams, abnormalParams, normalParams);
    var summary := GenerateSummary(parameters, criticalParams, abnormalParams, riskAssessment);
    recommendations := Bundle(critical, attention, normal, tips, summary, riskAssessment.risk);
  }

  /** `criticalParams.forEach(param => recommendations.critical.push({...}))`. */
  method PushCritical(criticalParams: seq<Parameter>) returns (critical: seq<Alert>)
    ensures critical == CriticalAlerts(criticalParams)
  {
    critical := [];
    var i := 0;
    while i < |criticalParams|
      invariant 0 <= i <= |criticalParams|
      invariant critical == CriticalAlerts(criticalParams[..i])
    {
      MappedSnoc(CriticalAlert, criticalParams, i);
      critical := critical + [CriticalAlert(criticalParams[i])];
      i := i + 1;
    }
    assert criticalParams[..i] == criticalParams;
  }

  /** `abnormalParams.forEach(param => recommendations.attention.push({...}))`. */
  method PushAttention(abnormalParams: seq<Parameter>) returns (attention: seq<Alert>)
    ensures attention == AttentionAlerts(abnormalParams)
  {
    attention := [];
    var i := 0;
    while i < |abnormalParams|
      invariant 0 <= i <= |abnormalParams|
      invariant attention == AttentionAlerts(abnormalParams[..i])
    {
      MappedSnoc(AttentionAlert, abnormalParams, i);
      attention := attention + [AttentionAlert(abnormalParams[i])];
      i := i + 1;
    }
    assert abnormalParams[..i] == abnormalParams;
  }

  /** `normalParams.forEach(param => recommendations.normal.push({...}))`. */
  method PushNormal(normalParams: seq<Parameter>) returns (normal: seq<NormalNote>)
    ensures normal == Notes(normalParams)
  {
    normal := [];
    var i := 0;
    while i < |normalParams|
      invariant 0 <= i <= |normalParams|
      invariant normal == Notes(normalParams[..i])
    {
      MappedSnoc(NoteOf, normalParams, i);
      normal := normal + [NoteOf(normalParams[i])];
      i := i + 1;
    }
    assert normalParams[..i] == normalParams;
  }

  // ---- What the buckets hold ----

  /** A parameter is in a bucket's list exactly when it is a parameter with a
      status of that bucket. */
  lemma {:induction false} SelectMembers(b: Bucket, ps: seq<Parameter>)
    ensures forall p :: p in Select(b, ps) <==> p in ps && InBucket(b, p.status)
    decreases |ps|
  {
    if ps != [] {
      var init := ps[..|ps| - 1];
      SelectMembers(b, init);
      assert ps == init + [ps[|ps| - 1]];
    }
  }

  /** Filtering keeps input order: the list of a concatenation is the
      concatenation of the lists. */
  lemma {:induction false} SelectAppend(b: Bucket, xs: seq<Parameter>, ys: seq<Parameter>)
    ensures Select(b, xs + ys) == Select(b, xs) + Select(b, ys)
    decreases |ys|
  {
    if ys == [] {
      assert xs + ys == xs;
    } else {
      var init := ys[..|ys| - 1];
      assert (xs + ys)[..|xs + ys| - 1] == xs + init;
      SelectAppend(b, xs, init);
    }
  }

  /** Every status lands in exactly one bucket. */
  lemma BucketsPartition(status: string)
    ensures InBucket(Unsorted, status) <==>
              !InBucket(CriticalBucket, status) && !InBucket(AttentionBucket, status) && !InBucket(NormalBucket, status)
    ensures InBucket(CriticalBucket, status) ==> !InBucket(AttentionBucket, status) && !InBucket(NormalBucket, status)
    ensures !(InBucket(AttentionBucket, status) && InBucket(NormalBucket, status))
  {
    if status == "high" || status == "low" || status == "normal" {
      NotContainedByChar(status, "critical", 'c');
    }
  }

  /** The four lists share out the parameters: their lengths add up to the total. */
  lemma {:induction false} SelectPartition(ps: seq<Parameter>)
    ensures |Select(CriticalBucket, ps)| + |Select(AttentionBucket, ps)| + |Select(NormalBucket, ps)|
            + |Select(Unsorted, ps)| == |ps|
    decreases |ps|
  {
    if ps != [] {
      SelectPartition(ps[..|ps| - 1]);
      BucketsPartition(ps[|ps| - 1].status);
    }
  }

  /** The summary's normal count, `total - critical - abnormal`, counts the
      parameters of no bucket as normal. */
  lemma SummaryNormalCount(ps: seq<Parameter>)
    ensures |ps| - |Select(CriticalBucket, ps)| - |Select(AttentionBucket, ps)|
            == |Select(NormalBucket, ps)| + |Select(Unsorted, ps)|
  {
    SelectPartition(ps);
  }

  /** The status names of the analyzer's own classification each fall in the
      bucket of their kind. */
  lemma StatusBuckets(s: Status)
    ensures InBucket(CriticalBucket, s.Name()) <==> s == CriticalLow || s == CriticalHigh
    ensures InBucket(AttentionBucket, s.Name()) <==> s == Low || s == High
    ensures InBucket(NormalBucket, s.Name()) <==> s == Normal
    ensures !InBucket(Unsorted, s.Name())
  {
    BucketsPartition(s.Name());
    if s == CriticalLow || s == CriticalHigh {
      assert OccursAt(s.Name(), "critical", 0);
    } else {
      NotContainedByChar(s.Name(), "critical", 'c');
    }
  }

  /** Every record built from the catalog falls in one of the three lists, so
      for an extracted report the summary's normal count is the normal list's length. */
  lemma {:induction false} ExtractedRecordsSorted(ps: seq<Parameter>)
    requires forall r :: r in ps ==> ConsistentRecord(r)
    ensures Select(Unsorted, ps) == []
    ensures |Select(CriticalBucket, ps)| + |Select(AttentionBucket, ps)| + |Select(NormalBucket, ps)| == |ps|
    decreases |ps|
  {
    if ps != [] {
      var init := ps[..|ps| - 1];
      var r := ps[|ps| - 1];
      assert forall x :: x in init ==> x in ps;
      ExtractedRecordsSorted(init);
      assert r in ps;
      StatusBuckets(DetermineStatus(r.value, Lookup(r.name).value));
      SelectPartition(ps);
    }
  }

  // ---- What the bundle says ----

  /** Without parameters the bundle is empty, the risk `low`, and the summary the fixed notice. */
  lemma EmptyReport()
    ensures Recommend([]) == Bundle([], [], [], [], NoParametersSummary, "low")
  {
  }

  /** The lists of a non-empty report are those of its three buckets. */
  lemma ListsOfReport(ps: seq<Parameter>)
    requires ps != []
    ensures Recommend(ps).critical == CriticalAlerts(Select(CriticalBucket, ps))
    ensures Recommend(ps).attention == AttentionAlerts(Select(AttentionBucket, ps))
    ensures Recommend(ps).normal == Notes(Select(NormalBucket, ps))
  {
  }

  /** The critical entries are the critical parameters in input order, each
      with urgency `immediate` and the critical message of its name. */
  lemma CriticalEntries(ps: seq<Parameter>)
    ensures var entries := CriticalAlerts(Select(CriticalBucket, ps)); var c := Select(CriticalBucket, ps);
            && |entries| == |c|
            && forall i :: 0 <= i < |c| ==>
                 && entries[i].parameter == c[i].name && entries[i].status == c[i].status
                 && Contains(entries[i].status, "critical")
                 && entries[i].urgency == "immediate"
                 && entries[i].message == CriticalMessage(c[i].name)
  {
    var c := Select(CriticalBucket, ps);
    SelectMembers(CriticalBucket, ps);
    assert forall i :: 0 <= i < |c| ==> c[i] in c;
    assert forall i :: 0 <= i < |c| ==> CriticalAlerts(c)[i] == CriticalAlert(c[i]);
  }

  /** The attention entries are the `high` and `low` parameters in input order,
      each with urgency `moderate` and the message for its name and direction. */
  lemma AttentionEntries(ps: seq<Parameter>)
    ensures var entries := AttentionAlerts(Select(AttentionBucket, ps)); var a := Select(AttentionBucket, ps);
            && |entries| == |a|
            && forall i :: 0 <= i < |a| ==>
                 && entries[i].parameter == a[i].name && entries[i].status == a[i].status
                 && (entries[i].status == "high" || entries[i].status == "low")
                 && entries[i].urgency == "moderate"
                 && entries[i].message == AbnormalMessage(a[i].name, a[i].status)
  {
    var a := Select(AttentionBucket, ps);
    SelectMembers(AttentionBucket, ps);
    assert forall i :: 0 <= i < |a| ==> a[i] in a;
    assert forall i :: 0 <= i < |a| ==> AttentionAlerts(a)[i] == AttentionAlert(a[i]);
  }

  /** The normal entries are the `normal` parameters in input order, each
      saying the capitalised name is within range. */
  lemma NormalEntries(ps: seq<Parameter>)
    ensures var entries := Notes(Select(NormalBucket, ps)); var n := Select(NormalBucket, ps);
            && |entries| == |n|
            && forall i :: 0 <= i < |n| ==>
                 && n[i].status == "normal"
                 && entries[i].parameter == n[i].name
                 && entries[i].message == Capitalize(n[i].name) + " is within normal range"
  {
    var n := Select(NormalBucket, ps);
    SelectMembers(NormalBucket, ps);
    assert forall i :: 0 <= i < |n| ==> n[i] in n;
    assert forall i :: 0 <= i < |n| ==> Notes(n)[i] == NoteOf(n[i]);
  }

  /** The tips, summary and risk of a non-empty report. */
  lemma OutlineOfReport(ps: seq<Parameter>)
    requires ps != []
    ensures var b := Recommend(ps);
            var c, a := |Select(CriticalBucket, ps)|, |Select(AttentionBucket, ps)|;
            var risk := Assess(c, a, |Select(NormalBucket, ps)|).risk;
            b.tips == TipsFor(Categories(ps)) && b.overallRisk == risk && b.summary == Concat(Sentences(|ps|, c, a, risk))
  {
  }

  /** Tips, risk and summary of a non-empty report: the risk is the tier of the
      three list lengths, and the summary names it. */
  lemma RiskOfReport(ps: seq<Parameter>)
    requires ps != []
    ensures var b := Recommend(ps);
            var c, a := |Select(CriticalBucket, ps)|, |Select(AttentionBucket, ps)|;
            && b.tips == TipsFor(Categories(ps))
            && b.overallRisk == Assess(c, a, |Select(NormalBucket, ps)|).risk
            && (c > 0 ==> b.overallRisk in {"high", "moderate"})
            && RiskLine(b.overallRisk) in Sentences(|ps|, c, a, b.overallRisk)
            && |Header(|ps|)| <= |b.summary| && b.summary[..|Header(|ps|)|] == Header(|ps|)
  {
    var c, a := |Select(CriticalBucket, ps)|, |Select(AttentionBucket, ps)|;
    var risk := Assess(c, a, |Select(NormalBucket, ps)|).risk;
    OutlineOfReport(ps);
    if c > 0 {
      AnyCriticalAtLeastModerate(c, a, |Select(NormalBucket, ps)|);
    }
    SentencesPresent(|ps|, c, a, risk);
    SummaryOpensWithHeader(|ps|, c, a, risk);
  }

  // ---- What the messages say ----

  /** The table is looked up by the lower-cased name: two spellings of a known
      key get the same message, and an unknown name gets the generic fallback,
      which quotes it. */
  lemma CriticalMessageByKey(x: string, y: string)
    ensures Lower(x) == Lower(y) && CriticalEntry(Lower(x)).Some? ==> CriticalMessage(x) == CriticalMessage(y)
    ensures CriticalEntry(Lower(x)).None? ==> CriticalMessage(x) == "Critical " + x + CriticalFallbackTail
    ensures CriticalEntry(Lower(x)).None? ==> Contains(CriticalMessage(x), x)
  {
    ContainsConcat("Critical ", x, CriticalFallbackTail);
  }

  /** The attention message is looked up by the lower-cased name in the table
      for the direction: two spellings of a known key get the same message, and
      an unknown name gets the direction's generic fallback, which quotes it
      capitalised. */
  lemma AbnormalMessageByKey(x: string, y: string, status: string)
    ensures var entry := if status == "high" then HighEntry(Lower(x)) else LowEntry(Lower(x));
            && (Lower(x) == Lower(y) && entry.Some? ==> AbnormalMessage(x, status) == AbnormalMessage(y, status))
            && (entry.None? ==> AbnormalMessage(x, status) ==
                                  Capitalize(x) + if status == "high" then HighFallbackTail else LowFallbackTail)
            && (entry.None? ==> Contains(AbnormalMessage(x, status), Capitalize(x)))
  {
    if status == "high" {
      FallbackQuotesName(Capitalize(x), HighFallbackTail);
    } else {
      FallbackQuotesName(Capitalize(x), LowFallbackTail);
    }
  }

  lemma FallbackQuotesName(name: string, rest: string)
    ensures Contains(name + rest, name)
  {
    assert OccursAt(name + rest, name, 0) by {
      assert (name + rest)[..|name|] == name;
    }
  }
}
