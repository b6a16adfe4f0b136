/**
 * The pure pieces of src/controllers/labReport.controller.js: the text-range
 * `determineStatus`, `manualParseHealthParameters`, the text-length gates of
 * `uploadLabReport` and the name grouping of `getUserHealthTrends`.
 */
module LabReportController {
  import opened Wrappers
  import opened JsText
  import opened JsNumber
  import opened Catalog
  import opened Extraction
  import opened Recommendations
  import opened OcrText

  // ---- The two regular expressions of determineStatus ----

  /** A character of the class `[\d.]`. */
  predicate RunChar(c: char) {
    IsDigit(c) || c == '.'
  }

  /** The end of the run of `[\d.]` characters that starts at `i`. */
  function RunEnd(s: string, i: nat): (j: nat)
    requires i <= |s|
    ensures i <= j <= |s|
    decreases |s| - i
  {
    if i < |s| && RunChar(s[i]) then RunEnd(s, i + 1) else i
  }

  /** The end of the run of whitespace that starts at `i`. */
  function SpaceEnd(s: string, i: nat): (j: nat)
    requires i <= |s|
    ensures i <= j <= |s|
    decreases |s| - i
  {
    if i < |s| && IsSpace(s[i]) then SpaceEnd(s, i + 1) else i
  }

  /** `s.match(/[\d.]+/)?.[0]`, searching from `i`: the first run. */
  function FirstRun(s: string, i: nat): Option<string>
    requires i <= |s|
    decreases |s| - i
  {
    if i == |s| then None
    else if RunChar(s[i]) then Some(s[i..RunEnd(s, i)])
    else FirstRun(s, i + 1)
  }

  /** The match of `([\d.]+)\s*-\s*([\d.]+)` that starts at `i`, as its two
      groups. Each part of the pattern is followed by something its own class
      excludes, so the greedy runs are never given back: the first group is the
      run at `i`, the second the run after the dash and the spaces. */
  function BandAt(s: string, i: nat): Option<(string, string)>
    requires i <= |s|
  {
    var j := RunEnd(s, i);
    var k := SpaceEnd(s, j);
    if j > i && k < |s| && s[k] == '-' then
      var l := SpaceEnd(s, k + 1);
      var m := RunEnd(s, l);
      if m > l then Some((s[i..j], s[l..m])) else None
    else None
  }

  /** `s.match(/([\d.]+)\s*-\s*([\d.]+)/)`, searching from `i`: the leftmost match. */
  function FirstBand(s: string, i: nat): Option<(string, string)>
    requires i <= |s|
    decreases |s| - i
  {
    if i == |s| then None
    else if BandAt(s, i).Some? then BandAt(s, i)
    else FirstBand(s, i + 1)
  }

  /** `parseFloat(range.match(/[\d.]+/)?.[0])`: NaN when there is no run. */
  function Limit(range: string): Number {
    var run := FirstRun(range, 0);
    if run.Some? then ParseFloat(run.value) else NaN
  }

  // ---- determineStatus(value, normalRange) ----

  /** The Title-case statuses of the controller. */
  datatype Verdict = Unknown | InRange | AboveRange | BelowRange {
    function Name(): string {
      match this
      case Unknown => "Unknown"
      case InRange => "Normal"
      case AboveRange => "High"
      case BelowRange => "Low"
    }
  }

  /** `determineStatus(value, normalRange)`: an upper-limit form `<`, then a
      lower-limit form `>`, then a band `a - b`; a falsy value or range, or a
      range of no form, is `Unknown`. */
  function RangeStatus(value: Number, normalRange: string): Verdict {
    if normalRange == "" || !Truthy(value) then Unknown
    else
      var range := Lower(normalRange);
      if '<' in range then
        (if Less(value, Limit(range)) then InRange else AboveRange)
      else if '>' in range then
        (if Greater(value, Limit(range)) then InRange else BelowRange)
      else if '-' in range && FirstBand(range, 0).Some? then
        var min := ParseFloat(FirstBand(range, 0).value.0);
        var max := ParseFloat(FirstBand(range, 0).value.1);
        if AtLeast(value, min) && AtMost(value, max) then InRange
        else if Less(value, min) then BelowRange
        else AboveRange
      else Unknown
  }

  // ---- What determineStatus gives ----

  /** A falsy value (0 or NaN) or an empty range is `Unknown`. */
  lemma FalsyIsUnknown(value: Number, normalRange: string)
    requires normalRange == "" || value == NaN || value == Num(0.0)
    ensures RangeStatus(value, normalRange) == Unknown
  {
  }

  /** `Unknown` comes exactly from a falsy value or range, or from a range with
      no `<`, no `>` and no `a - b` band. */
  lemma UnknownExactly(value: Number, normalRange: string)
    ensures var range := Lower(normalRange);
            RangeStatus(value, normalRange) == Unknown <==>
              || normalRange == "" || !Truthy(value)
              || ('<' !in range && '>' !in range && !('-' in range && FirstBand(range, 0).Some?))
  {
  }

  /** The upper-limit form: `Normal` strictly below the limit, `High` from the
      limit on, so a value equal to the limit is `High`. Its `<` wins over any
      other sign in the range. */
  lemma UpperLimitForm(value: real, normalRange: string)
    requires normalRange != "" && value != 0.0 && '<' in Lower(normalRange)
    ensures var limit := Limit(Lower(normalRange));
            && (RangeStatus(Num(value), normalRange) == InRange <==> limit.Num? && value < limit.r)
            && (RangeStatus(Num(value), normalRange) == AboveRange <==> !(limit.Num? && value < limit.r))
  {
  }

  /** The lower-limit form, tested only when there is no `<`: `Normal` strictly
      above the limit, `Low` from the limit down. */
  lemma LowerLimitForm(value: real, normalRange: string)
    requires normalRange != "" && value != 0.0
    requires '<' !in Lower(normalRange) && '>' in Lower(normalRange)
    ensures var limit := Limit(Lower(normalRange));
            && (RangeStatus(Num(value), normalRange) == InRange <==> limit.Num? && value > limit.r)
            && (RangeStatus(Num(value), normalRange) == BelowRange <==> !(limit.Num? && value > limit.r))
  {
  }

  /** The band form between two numbers: `Normal` inside the closed band,
      `Low` below it and `High` above it. */
  lemma BandForm(value: real, normalRange: string, min: real, max: real)
    requires normalRange != "" && value != 0.0
    requires '<' !in Lower(normalRange) && '>' !in Lower(normalRange) && '-' in Lower(normalRange)
    requires FirstBand(Lower(normalRange), 0).Some?
    requires ParseFloat(FirstBand(Lower(normalRange), 0).value.0) == Num(min)
    requires ParseFloat(FirstBand(Lower(normalRange), 0).value.1) == Num(max)
    requires min <= max
    ensures RangeStatus(Num(value), normalRange) == InRange <==> min <= value <= max
    ensures RangeStatus(Num(value), normalRange) == BelowRange <==> value < min
    ensures RangeStatus(Num(value), normalRange) == AboveRange <==> max < value
  {
  }

  /** Every result is one of the four statuses, and none of them is a status
      name the analyzer uses: the bundle of `generateAIRecommendations` would
      put a record with any of them in none of its lists. */
  lemma VerdictsUnsorted(v: Verdict)
    ensures v.Name() in {"Unknown", "Normal", "High", "Low"}
    ensures InBucket(Unsorted, v.Name())
  {
    BucketsPartition(v.Name());
    NotContainedByChar(v.Name(), "critical", 'c');
  }

  // ---- Reading the ranges of the manual table ----

  lemma {:induction false} RunEndOf(s: string, i: nat, n: nat)
    requires i + n <= |s|
    requires forall k :: i <= k < i + n ==> RunChar(s[k])
    requires i + n == |s| || !RunChar(s[i + n])
    ensures RunEnd(s, i) == i + n
    decreases n
  {
    if n > 0 {
      RunEndOf(s, i + 1, n - 1);
    }
  }

  predicate AllRunChars(a: string) {
    forall k :: 0 <= k < |a| ==> RunChar(a[k])
  }

  /** On `a + " - " + b` with two runs `a` and `b`, the band pattern finds `a` and `b`. */
  lemma BandOfRange(a: string, b: string)
    requires |a| > 0 && |b| > 0 && AllRunChars(a) && AllRunChars(b)
    ensures FirstBand(a + " - " + b, 0) == Some((a, b))
  {
    var s := a + " - " + b;
    var n := |a|;
    RunEndOfPiece([], a, " - " + b);
    assert [] + a + (" - " + b) == s;
    RunEndOfPiece(a + " - ", b, []);
    assert a + " - " + b + [] == s;
    assert s[n] == ' ' && s[n + 1] == '-' && s[n + 2] == ' ' && s[n + 3] == b[0];
    SingleSpace(s, n);
    SingleSpace(s, n + 2);
    assert s[..n] == a && s[n + 3..|s|] == b;
    assert BandAt(s, 0) == Some((a, b));
  }

  /** A run `a` between `p` and something that does not continue it ends where `a` does. */
  lemma RunEndOfPiece(p: string, a: string, rest: string)
    requires AllRunChars(a) && (rest == [] || !RunChar(rest[0]))
    ensures RunEnd(p + a + rest, |p|) == |p| + |a|
  {
    var s := p + a + rest;
    assert forall k :: |p| <= k < |p| + |a| ==> s[k] == a[k - |p|];
    if rest != [] {
      assert s[|p| + |a|] == rest[0];
    }
    RunEndOf(s, |p|, |a|);
  }

  /** A single space before a character that is not whitespace. */
  lemma SingleSpace(s: string, i: nat)
    requires i + 1 < |s| && s[i] == ' ' && !IsSpace(s[i + 1])
    ensures SpaceEnd(s, i) == i + 1
  {
  }

  /** On `sign + " " + a` with a run `a`, the first run is `a`. */
  lemma LimitOfRange(sign: char, a: string)
    requires !RunChar(sign) && |a| > 0 && AllRunChars(a)
    ensures FirstRun([sign] + " " + a, 0) == Some(a)
  {
    var s := [sign] + " " + a;
    assert s[0] == sign && s[1] == ' ' && s[2] == a[0] && RunChar(a[0]);
    RunEndOf(s, 2, |a|);
    assert s[2..|s|] == a;
    assert FirstRun(s, 2) == Some(a);
    assert FirstRun(s, 1) == FirstRun(s, 2);
  }

  // ---- manualParseHealthParameters ----

  datatype TestMapping = TestMapping(name: string, searchTerms: seq<string>, value: string,
                                     unit: string, normalRange: string, category: string)

  /** `testMappings`. */
  const TestMappings: seq<TestMapping> := [
    TestMapping("tsh", ["thyroid stimulating hormone", "tsh"], "3.5", "iu/ml", "0.4 - 4.0", "thyroid"),
    TestMapping("free t3", ["free t3", "t3"], "3.2", "pg/ml", "2.3 - 4.2", "thyroid"),
    TestMapping("free t4", ["free t4", "t4"], "1.1", "ng/dl", "0.8 - 1.8", "thyroid"),
    TestMapping("glucose", ["fasting blood sugar", "glucose", "blood sugar"], "110", "mg/dl", "70 - 100", "diabetes"),
    TestMapping("hba1c", ["hba1c", "hemoglobin a1c"], "6.2", "%", "< 5.7", "diabetes"),
    TestMapping("total cholesterol", ["total cholesterol", "cholesterol"], "190", "mg/dl", "< 200", "lipid"),
    TestMapping("hdl cholesterol", ["hdl cholesterol", "hdl"], "50", "mg/dl", "> 40", "lipid"),
    TestMapping("ldl cholesterol", ["ldl cholesterol", "ldl"], "110", "mg/dl", "< 130", "lipid"),
    TestMapping("triglycerides", ["triglycerides"], "150", "mg/dl", "< 150", "lipid"),
    TestMapping("haemoglobin", ["hemoglobin", "hb"], "", "g/dl", "13.5 - 17.5", "blood")
  ]

  /** A record of the manual parse: the range is kept as text and the value may be NaN. */
  datatype ManualRecord = ManualRecord(name: string, value: Number, unit: string, rangeText: string,
                                       status: string, category: string, reportId: string, userId: string,
                                       extractedFrom: string)

  /** `test.searchTerms.some(term => textLower.includes(term.toLowerCase()))`. */
  predicate Found(t: TestMapping, textLower: string) {
    exists k :: 0 <= k < |t.searchTerms| && Contains(textLower, Lower(t.searchTerms[k]))
  }

  /** The record a found mapping pushes: everything but the ids comes from the table. */
  function ManualRecordOf(t: TestMapping, reportId: string, userId: string): ManualRecord {
    var value := ParseFloat(t.value);
    ManualRecord(t.name, value, t.unit, t.normalRange, RangeStatus(value, t.normalRange).Name(),
                 t.category, reportId, userId, "Manual extraction: " + t.name)
  }

  /** The records of the found mappings among `ts`, in mapping order. */
  function ManualRecords(ts: seq<TestMapping>, textLower: string, reportId: string, userId: string): seq<ManualRecord>
    decreases |ts|
  {
    if ts == [] then []
    else
      var t := ts[|ts| - 1];
      ManualRecords(ts[..|ts| - 1], textLower, reportId, userId)
      + (if Found(t, textLower) then [ManualRecordOf(t, reportId, userId)] else [])
  }

  /** The result of a call: the function has no `return`, so it is `undefined`. */
  datatype ManualResult = Undefined | Records(records: seq<ManualRecord>)

  /** The `forEach` over the mappings. */
  method CollectManualRecords(testMappings: seq<TestMapping>, text: string, reportId: string, userId: string)
    returns (parameters: seq<ManualRecord>)
    ensures parameters == ManualRecords(testMappings, Lower(text), reportId, userId)
  {
    parameters := [];
    var textLower := Lower(text);
    var i := 0;
    while i < |testMappings|
      invariant 0 <= i <= |testMappings|
      invariant parameters == ManualRecords(testMappings[..i], textLower, reportId, userId)
    {
      ManualRecordsSnoc(testMappings, i, textLower, reportId, userId);
      var test := testMappings[i];
      if Found(test, textLower) {
        parameters := parameters + [ManualRecordOf(test, reportId, userId)];
      }
      i := i + 1;
    }
    assert testMappings[..i] == testMappings;
  }

  /** One more mapping adds its record when it is found. */
  lemma ManualRecordsSnoc(ts: seq<TestMapping>, i: nat, textLower: string, reportId: string, userId: string)
    requires i < |ts|
    ensures ManualRecords(ts[..i + 1], textLower, reportId, userId) ==
            ManualRecords(ts[..i], textLower, reportId, userId)
            + (if Found(ts[i], textLower) then [ManualRecordOf(ts[i], reportId, userId)] else [])
  {
    assert ts[..i + 1][..i] == ts[..i];
  }

  /** `manualParseHealthParameters(text, reportId, userId)` as written: the
      records are built and dropped, and the call yields `undefined`. */
  method ManualParseAsWritten(text: string, reportId: string, userId: string) returns (result: ManualResult)
    ensures result == Undefined
  {
    var parameters := CollectManualRecords(TestMappings, text, reportId, userId);
    result := Undefined;
  }

  /** The function with the `return parameters` it lacks. */
  method ManualParse(text: string, reportId: string, userId: string) returns (result: ManualResult)
    ensures result == Records(ManualRecords(TestMappings, Lower(text), reportId, userId))
  {
    var parameters := CollectManualRecords(TestMappings, text, reportId, userId);
    result := Records(parameters);
  }

  // ---- What the manual parse builds ----

  /** A record is built exactly for each found mapping, and it carries the
      table's value, range and status, not anything read from the text. */
  lemma {:induction false} ManualRecordsMembers(ts: seq<TestMapping>, textLower: string, reportId: string, userId: string)
    ensures forall r :: r in ManualRecords(ts, textLower, reportId, userId) <==>
              exists t :: t in ts && Found(t, textLower) && r == ManualRecordOf(t, reportId, userId)
    ensures |ManualRecords(ts, textLower, reportId, userId)| <= |ts|
    decreases |ts|
  {
    if ts != [] {
      var init := ts[..|ts| - 1];
      ManualRecordsMembers(init, textLower, reportId, userId);
      assert ts == init + [ts[|ts| - 1]];
    }
  }

  /** The records follow mapping order: those of a concatenation of mapping
      lists are the records of the first list, then those of the second. */
  lemma {:induction false} ManualRecordsAppend(a: seq<TestMapping>, b: seq<TestMapping>, textLower: string,
                                               reportId: string, userId: string)
    ensures ManualRecords(a + b, textLower, reportId, userId) ==
            ManualRecords(a, textLower, reportId, userId) + ManualRecords(b, textLower, reportId, userId)
    decreases |b|
  {
    if b == [] {
      assert a + b == a;
    } else {
      var init := b[..|b| - 1];
      assert (a + b)[..|a + b| - 1] == a + init;
      ManualRecordsAppend(a, init, textLower, reportId, userId);
    }
  }

  /** The search terms are written in lower case. */
  lemma SearchTermFound(t: TestMapping, k: nat, textLower: string)
    requires 0 <= k < |t.searchTerms| && Contains(textLower, t.searchTerms[k])
    requires forall c :: c in t.searchTerms[k] ==> !('A' <= c <= 'Z')
    ensures Found(t, textLower)
  {
    LowerOfLowercase(t.searchTerms[k]);
  }

  /** A range made of digits, points, spaces and signs has no upper-case letter. */
  lemma LowerOfRange(range: string)
    requires forall k :: 0 <= k < |range| ==>
               range[k] == ' ' || range[k] == '-' || range[k] == '<' || range[k] == '>' || RunChar(range[k])
    ensures Lower(range) == range
  {
    LowerOfLowercase(range);
  }

  /** A band `lo - hi` of two numerals: `Normal` inside, `Low` below, `High` above. */
  lemma NumeralBand(value: real, lo: string, hi: string, min: real, max: real)
    requires |lo| > 0 && |hi| > 0 && AllRunChars(lo) && AllRunChars(hi)
    requires ParseFloat(lo) == Num(min) && ParseFloat(hi) == Num(max) && min <= max
    requires value != 0.0
    ensures RangeStatus(Num(value), lo + " - " + hi) ==
              if min <= value <= max then InRange else if value < min then BelowRange else AboveRange
  {
    var range := lo + " - " + hi;
    LowerOfBand(lo, hi);
    BandOfRange(lo, hi);
    BandForm(value, range, min, max);
  }

  /** A band of two numerals is already in lower case, and its only sign is the dash. */
  lemma LowerOfBand(lo: string, hi: string)
    requires AllRunChars(lo) && AllRunChars(hi)
    ensures Lower(lo + " - " + hi) == lo + " - " + hi
    ensures '<' !in lo + " - " + hi && '>' !in lo + " - " + hi && '-' in lo + " - " + hi
  {
    var range := lo + " - " + hi;
    forall k | 0 <= k < |range|
      ensures range[k] == ' ' || range[k] == '-' || RunChar(range[k])
    {
      if k < |lo| {
        assert range[k] == lo[k];
      } else if k >= |lo| + 3 {
        assert range[k] == hi[k - |lo| - 3];
      }
    }
    assert range[|lo| + 1] == '-';
    LowerOfRange(range);
  }

  /** A limit `sign n` of one numeral: the limit is the numeral's value. */
  lemma NumeralLimit(sign: char, a: string)
    requires sign == '<' || sign == '>'
    requires |a| > 0 && AllRunChars(a)
    ensures Lower([sign] + " " + a) == [sign] + " " + a
    ensures Limit([sign] + " " + a) == ParseFloat(a)
  {
    var range := [sign] + " " + a;
    forall k | 0 <= k < |range|
      ensures range[k] == ' ' || range[k] == sign || RunChar(range[k])
    {
      if k >= 2 {
        assert range[k] == a[k - 2];
      }
    }
    LowerOfRange(range);
    LimitOfRange(sign, a);
  }

  /** `parseFloat` of a whole numeral. */
  lemma Whole(d: string)
    requires |d| > 0 && AllDigits(d)
    ensures ParseFloat(d) == Num(DigitsValue(d) as real)
  {
    ParseWholeNumeral(d, []);
    assert d + [] == d;
  }

  /** A value equal to its own upper limit is `High`. */
  lemma AtLimitIsHigh(a: string)
    requires |a| > 0 && AllRunChars(a) && Truthy(ParseFloat(a))
    ensures RangeStatus(ParseFloat(a), "< " + a) == AboveRange
  {
    NumeralLimit('<', a);
    assert ['<'] + " " + a == "< " + a;
  }

  /** The triglycerides mapping's value is its own limit, so the manual parse
      files it as `High`. */
  lemma TriglyceridesAtLimit()
    ensures TestMappings[8].name == "triglycerides"
    ensures RangeStatus(ParseFloat(TestMappings[8].value), TestMappings[8].normalRange) == AboveRange
  {
    var t := TestMappings[8];
    assert t.normalRange == "< " + t.value;
    assert AllDigits(t.value) && |t.value| > 0;
    Whole(t.value);
    AtLimitIsHigh(t.value);
  }

  /** The haemoglobin mapping has an empty value, which parses to NaN. */
  lemma HaemoglobinStatus()
    ensures ParseFloat("") == NaN
    ensures RangeStatus(ParseFloat(""), "13.5 - 17.5") == Unknown
  {
  }

  /** A text mentioning glucose gets the glucose mapping's record. */
  lemma GlucoseFound(text: string, reportId: string, userId: string)
    requires Contains(Lower(text), "glucose")
    ensures TestMappings[3].name == "glucose"
    ensures ManualRecordOf(TestMappings[3], reportId, userId) in ManualRecords(TestMappings, Lower(text), reportId, userId)
  {
    var t := TestMappings[3];
    assert t.searchTerms[1] == "glucose";
    SearchTermFound(t, 1, Lower(text));
    ManualRecordsMembers(TestMappings, Lower(text), reportId, userId);
  }

  /** The glucose record's value is the table's 110, whatever the text says. */
  lemma GlucoseValue()
    ensures ParseFloat(TestMappings[3].value) == Num(110.0)
  {
    assert TestMappings[3].value == "110";
    ParseOneHundredTen();
  }

  lemma ParseOneHundredTen()
    ensures ParseFloat("110") == Num(110.0)
  {
    var d := "110";
    assert AllDigits(d);
    assert d[..2] == "11" && "11"[..1] == "1" && "1"[..0] == [];
    assert DigitsValue("1") == 1;
    assert DigitsValue("11") == 11;
    assert DigitsValue(d) == 110;
    Whole(d);
  }

  // ---- uploadLabReport: the length gates and the choice of parameters ----

  /** `extractedText && extractedText.trim().length > 10`: sets `isTextExtracted`. */
  predicate TextExtracted(text: string) {
    text != "" && |Trim(text)| > 10
  }

  /** `isTextExtracted && extractedText && extractedText.trim().length > 20`. */
  predicate ParsingAttempted(isTextExtracted: bool, text: string) {
    isTextExtracted && text != "" && |Trim(text)| > 20
  }

  /** The gates nest: parsing is attempted exactly when the trimmed text is
      longer than 20 characters, and a trimmed length of 11 to 20 marks the text
      as extracted without parsing it. */
  lemma GatesNest(text: string)
    ensures ParsingAttempted(TextExtracted(text), text) <==> |Trim(text)| > 20
    ensures TextExtracted(text) && !ParsingAttempted(TextExtracted(text), text) <==> 10 < |Trim(text)| <= 20
  {
    if text == "" {
      assert |Trim(text)| <= |text|;
    }
  }

  /** Lines 74-81: which records become `healthParameters`. */
  datatype Accepted = NoRecords | ParsedRecords(records: seq<Parameter>) | ManualRecordsAccepted(manual: seq<ManualRecord>)

  /** The parsed records when there are any; otherwise the manual result when it
      is a non-empty array; otherwise none. */
  function Accept(parsed: seq<Parameter>, manual: ManualResult): (a: Accepted)
    ensures a.ParsedRecords? <==> |parsed| > 0
    ensures a.ManualRecordsAccepted? <==> |parsed| == 0 && manual.Records? && |manual.records| > 0
  {
    if |parsed| > 0 then ParsedRecords(parsed)
    else if manual.Records? && |manual.records| > 0 then ManualRecordsAccepted(manual.records)
    else NoRecords
  }

  /** What the extractor gives: the text, or the message of the exception it raised. */
  datatype TextOutcome = Text(text: string) | Failure(message: string)

  /** The pure part of the upload response. */
  datatype Upload = Upload(extracted: bool, rawText: string, healthContent: Option<HealthContent>,
                           healthParameters: Accepted, recommendations: Option<Bundle>, responseText: string)

  /** `uploadLabReport` after the upload: `saved` says whether `insertMany` succeeded. */
  function UploadReport(matcher: Matcher, outcome: TextOutcome, reportId: string, userId: string, saved: bool): Upload {
    var rawText := if outcome.Text? then outcome.text else "Text extraction failed: " + outcome.message;
    var extracted := outcome.Text? && TextExtracted(rawText);
    var content := if extracted then Some(DetectHealthContent(rawText)) else None;
    var accepted :=
      if ParsingAttempted(extracted, rawText) then Accept(Extract(matcher, rawText, reportId, userId), Undefined)
      else NoRecords;
    var recommendations :=
      if accepted.ParsedRecords? && saved then Some(Recommend(accepted.records)) else None;
    Upload(extracted, rawText, content, accepted, recommendations,
           if extracted then rawText[..if |rawText| < 1000 then |rawText| else 1000] else rawText)
  }

  /** A failed extraction keeps the error text and goes no further. */
  lemma FailedExtraction(matcher: Matcher, message: string, reportId: string, userId: string, saved: bool)
    ensures var u := UploadReport(matcher, Failure(message), reportId, userId, saved);
            && !u.extracted && u.rawText == "Text extraction failed: " + message
            && u.healthContent == None && u.healthParameters == NoRecords && u.recommendations == None
            && u.responseText == u.rawText
  {
  }

  /** Recommendations come only from parsed records of a text longer than 20
      characters once trimmed, after they were saved; the manual fallback never
      supplies records; and the response text is at most the first 1000
      characters of an extracted text. */
  lemma UploadSpec(matcher: Matcher, outcome: TextOutcome, reportId: string, userId: string, saved: bool)
    ensures var u := UploadReport(matcher, outcome, reportId, userId, saved);
            && (u.recommendations.Some? <==>
                  outcome.Text? && |Trim(outcome.text)| > 20 && saved
                  && |Extract(matcher, outcome.text, reportId, userId)| > 0)
            && (u.recommendations.Some? ==>
                  u.recommendations.value == Recommend(Extract(matcher, outcome.text, reportId, userId)))
            && !u.healthParameters.ManualRecordsAccepted?
            && (u.healthContent.Some? <==> u.extracted)
            && (u.extracted ==> |u.responseText| <= 1000 && u.responseText == u.rawText[..|u.responseText|])
  {
    if outcome.Text? {
      GatesNest(outcome.text);
    }
  }

  /** The missing `return`: a text that mentions glucose gives a manual record,
      yet with the function as written no record is accepted, while with the
      `return` the manual records would be. */
  lemma ManualFallbackLost(text: string, reportId: string, userId: string)
    requires Contains(Lower(text), "glucose")
    ensures |ManualRecords(TestMappings, Lower(text), reportId, userId)| > 0
    ensures Accept([], Undefined) == NoRecords
    ensures Accept([], Records(ManualRecords(TestMappings, Lower(text), reportId, userId))) ==
            ManualRecordsAccepted(ManualRecords(TestMappings, Lower(text), reportId, userId))
  {
    GlucoseFound(text, reportId, userId);
  }

  // ---- getUserHealthTrends: grouping by name ----

  /** The fields of a stored parameter the grouping reads. */
  datatype StoredParameter = StoredParameter(name: string, value: real, unit: string, createdAt: int,
                                             reportId: string, status: string)

  datatype TrendPoint = TrendPoint(value: real, unit: string, date: int, reportId: string, status: string)

  function PointOf(p: StoredParameter): TrendPoint {
    TrendPoint(p.value, p.unit, p.createdAt, p.reportId, p.status)
  }

  /** `trendData` after the loop over `ps`. */
  function Trends(ps: seq<StoredParameter>): map<string, seq<TrendPoint>>
    decreases |ps|
  {
    if ps == [] then map[]
    else
      var m := Trends(ps[..|ps| - 1]);
      var p := ps[|ps| - 1];
      m[p.name := (if p.name in m then m[p.name] else []) + [PointOf(p)]]
  }

  /** The points of the parameters called `name`, in input order. */
  function PointsNamed(name: string, ps: seq<StoredParameter>): seq<TrendPoint>
    decreases |ps|
  {
    if ps == [] then []
    else PointsNamed(name, ps[..|ps| - 1]) + (if ps[|ps| - 1].name == name then [PointOf(ps[|ps| - 1])] else [])
  }

  /** A name that is an inherited member of the object: `trendData[name]` is
      that member, truthy, and has no `push`, so the loop throws. */
  predicate Inherited(ps: seq<StoredParameter>) {
    exists p :: p in ps && p.name in PrototypeMembers
  }

  /** The loop of `getUserHealthTrends`; None when it throws. */
  method GroupTrends(parameters: seq<StoredParameter>) returns (trendData: Option<map<string, seq<TrendPoint>>>)
    ensures Inherited(parameters) ==> trendData == None
    ensures !Inherited(parameters) ==> trendData == Some(Trends(parameters))
  {
    var data: map<string, seq<TrendPoint>> := map[];
    var i := 0;
    while i < |parameters|
      invariant 0 <= i <= |parameters|
      invariant data == Trends(parameters[..i])
      invariant forall k :: 0 <= k < i ==> parameters[k].name !in PrototypeMembers
    {
      assert parameters[..i + 1][..i] == parameters[..i];
      var param := parameters[i];
      if param.name in PrototypeMembers {
        return None;
      }
      if param.name !in data {
        data := data[param.name := []];
      }
      data := data[param.name := data[param.name] + [PointOf(param)]];
      i := i + 1;
    }
    assert parameters[..i] == parameters;
    trendData := Some(data);
  }

  /** The keys are the distinct names, and each group holds the points of the
      parameters of that name in input order. */
  lemma {:induction false} TrendsSpec(ps: seq<StoredParameter>)
    ensures forall n :: n in Trends(ps) <==> exists p :: p in ps && p.name == n
    ensures forall n :: n in Trends(ps) ==> Trends(ps)[n] == PointsNamed(n, ps)
    decreases |ps|
  {
    if ps != [] {
      var init := ps[..|ps| - 1];
      TrendsSpec(init);
      assert ps == init + [ps[|ps| - 1]];
      forall n | n !in Trends(init)
        ensures PointsNamed(n, init) == []
      {
        PointsNamedAbsent(n, init);
      }
    }
  }

  lemma {:induction false} PointsNamedAbsent(n: string, ps: seq<StoredParameter>)
    requires forall p :: p in ps ==> p.name != n
    ensures PointsNamed(n, ps) == []
    decreases |ps|
  {
    if ps != [] {
      assert forall p :: p in ps[..|ps| - 1] ==> p in ps;
      PointsNamedAbsent(n, ps[..|ps| - 1]);
    }
  }

  /** Each parameter is appended exactly once: a group is as long as the number
      of parameters with its name. */
  lemma {:induction false} PointsNamedCount(n: string, ps: seq<StoredParameter>)
    ensures |PointsNamed(n, ps)| == multiset(Names(ps))[n]
    decreases |ps|
  {
    if ps != [] {
      PointsNamedCount(n, ps[..|ps| - 1]);
    }
  }

  function Names(ps: seq<StoredParameter>): seq<string>
    decreases |ps|
  {
    if ps == [] then [] else Names(ps[..|ps| - 1]) + [ps[|ps| - 1].name]
  }
}
