/**
 * `parseHealthParameters` (src/utils/healthAnalyzer.js): the text is split
 * into lines, each line is run through the four patterns in turn, and every
 * match whose name is found in the catalog and whose number parses becomes a
 * parameter record. The regular expressions themselves are a parameter of the
 * model (`Matcher`): it yields, for a line and a pattern index, the matches of
 * `line.matchAll(pattern)` in order, each as its three capture groups.
 */
module Extraction {
  import opened Wrappers
  import opened JsText
  import opened JsNumber
  import opened Catalog
  import opened Classification

  /** One match: the name, number and unit capture groups. The unit is "" when
      the group did not take part (the fourth pattern has none). */
  datatype Match = Match(name: string, number: string, unit: string)

  /** `[...line.matchAll(patterns[p])]` for `p` in 0..3. */
  type Matcher = (string, nat) -> seq<Match>

  const PatternCount: nat := 4

  /** A record as `parseHealthParameters` pushes it. */
  datatype Parameter = Parameter(
    name: string,
    value: real,
    unit: string,
    referenceRange: Bounds,
    status: string,
    category: string,
    reportId: string,
    userId: string,
    extractedFrom: string)

  /** `match[1].trim().toLowerCase()`. */
  function MatchName(m: Match): string {
    Lower(Trim(m.name))
  }

  /** `match[3] ? match[3].toLowerCase() : ''`. */
  function MatchUnit(m: Match): string {
    Lower(m.unit)
  }

  /** The record one match yields, or None when its name is not in the catalog
      or its number is NaN. */
  function MakeRecord(m: Match, line: string, reportId: string, userId: string): Option<Parameter> {
    var name := MatchName(m);
    var value := ParseFloat(m.number);
    var unit := MatchUnit(m);
    var def := Lookup(name);
    if def.Some? && value.Num? then
      Some(Parameter(name, value.r, if unit != "" then unit else def.value.unit,
                     Bounds(def.value.min, def.value.max), DetermineStatus(value.r, def.value).Name(),
                     def.value.category, reportId, userId, Trim(line)))
    else None
  }

  /** `build(m, line)`: the record a match on a line yields, if any. */
  type Builder = (Match, string) -> Option<Parameter>

  /** The record builder of one call of `parseHealthParameters`. */
  function Recorder(reportId: string, userId: string): Builder {
    (m: Match, line: string) => MakeRecord(m, line, reportId, userId)
  }

  function Emitted(r: Option<Parameter>): seq<Parameter> {
    if r.Some? then [r.value] else []
  }

  /** The records of the matches `ms` of one pattern on `line`, in match order. */
  function MatchRecords(build: Builder, ms: seq<Match>, line: string): seq<Parameter>
    decreases |ms|
  {
    if ms == [] then []
    else MatchRecords(build, ms[..|ms| - 1], line) + Emitted(build(ms[|ms| - 1], line))
  }

  /** The records of patterns 0 .. n-1 on `line`, pattern by pattern. */
  function PatternRecords(matcher: Matcher, build: Builder, line: string, n: nat): seq<Parameter> {
    if n == 0 then []
    else PatternRecords(matcher, build, line, n - 1) + MatchRecords(build, matcher(line, n - 1), line)
  }

  function LineRecords(matcher: Matcher, build: Builder, line: string): seq<Parameter> {
    PatternRecords(matcher, build, line, PatternCount)
  }

  /** The records of `lines`, line by line. */
  function TextRecords(matcher: Matcher, build: Builder, lines: seq<string>): seq<Parameter>
    decreases |lines|
  {
    if lines == [] then []
    else TextRecords(matcher, build, lines[..|lines| - 1]) + LineRecords(matcher, build, lines[|lines| - 1])
  }

  /** What `parseHealthParameters(text, reportId, userId)` returns. */
  function Extract(matcher: Matcher, text: string, reportId: string, userId: string): seq<Parameter> {
    TextRecords(matcher, Recorder(reportId, userId), Split(text, '\n'))
  }

  /** The body of the match loop: look the name up, parse the number and, when
      both succeed, build the record. There is a record exactly when the name is
      found and the number is not NaN, and every field of it is fixed: the
      cleaned name, the parsed value, the matched unit or else the definition's,
      the definition's band, category and status, the ids and the trimmed line. */
  method RecordOf(m: Match, line: string, reportId: string, userId: string) returns (record: Option<Parameter>)
    ensures record.Some? <==> Lookup(MatchName(m)).Some? && ParseFloat(m.number).Num?
    ensures record.Some? ==>
              var r, d := record.value, Lookup(MatchName(m)).value;
              && r.name == MatchName(m)
              && Num(r.value) == ParseFloat(m.number)
              && r.unit == (if MatchUnit(m) != "" then MatchUnit(m) else d.unit)
              && AgreesWith(r, d)
              && r.reportId == reportId && r.userId == userId
              && r.extractedFrom == Trim(line)
  {
    var name := Lower(Trim(m.name));
    var value := ParseFloat(m.number);
    var unit := if m.unit != "" then Lower(m.unit) else "";
    var paramDef := FindParameterDefinition(name);
    if paramDef.Some? && value.Num? {
      record := Some(Parameter(
        name, value.r, if unit != "" then unit else paramDef.value.unit,
        Bounds(paramDef.value.min, paramDef.value.max),
        DetermineStatus(value.r, paramDef.value).Name(),
        paramDef.value.category, reportId, userId, Trim(line)));
    } else {
      record := None;
    }
  }

  lemma TextRecordsStep(matcher: Matcher, build: Builder, lines: seq<string>, i: nat)
    requires i < |lines|
    ensures TextRecords(matcher, build, lines[..i]) + LineRecords(matcher, build, lines[i])
            == TextRecords(matcher, build, lines[..i + 1])
  {
    assert lines[..i + 1][..i] == lines[..i];
  }

  lemma PatternRecordsStep(acc: seq<Parameter>, matcher: Matcher, build: Builder, line: string, p: nat)
    ensures acc + PatternRecords(matcher, build, line, p) + MatchRecords(build, matcher(line, p), line)
            == acc + PatternRecords(matcher, build, line, p + 1)
  {
  }

  lemma MatchRecordsStep(acc: seq<Parameter>, build: Builder, ms: seq<Match>, line: string, k: nat)
    requires k < |ms|
    ensures acc + MatchRecords(build, ms[..k], line) + Emitted(build(ms[k], line))
            == acc + MatchRecords(build, ms[..k + 1], line)
  {
    assert ms[..k + 1][..k] == ms[..k];
  }

  /** One pass of the match loop: build the record and push it when there is one. */
  method AddRecord(parameters: seq<Parameter>, m: Match, line: string, reportId: string, userId: string)
    returns (updated: seq<Parameter>)
    ensures updated == parameters + Emitted(Recorder(reportId, userId)(m, line))
  {
    var record := RecordOf(m, line, reportId, userId);
    assert record == MakeRecord(m, line, reportId, userId);
    assert Emitted(record) == Emitted(Recorder(reportId, userId)(m, line));
    updated := parameters;
    if record.Some? {
      updated := updated + [record.value];
    }
  }

  /** The match loop of one pattern on one line. */
  method AddMatches(parameters: seq<Parameter>, matches: seq<Match>, line: string, reportId: string, userId: string)
    returns (updated: seq<Parameter>)
    ensures updated == parameters + MatchRecords(Recorder(reportId, userId), matches, line)
  {
    var build := Recorder(reportId, userId);
    updated := parameters;
    var k := 0;
    while k < |matches|
      invariant 0 <= k <= |matches|
      invariant updated == parameters + MatchRecords(build, matches[..k], line)
    {
      updated := AddRecord(updated, matches[k], line, reportId, userId);
      MatchRecordsStep(parameters, build, matches, line, k);
      k := k + 1;
    }
    assert matches[..k] == matches;
  }

  /** The pattern loop on one line: the matches of each pattern in turn. */
  method AddLine(parameters: seq<Parameter>, matcher: Matcher, line: string, reportId: string, userId: string)
    returns (updated: seq<Parameter>)
    ensures updated == parameters + LineRecords(matcher, Recorder(reportId, userId), line)
  {
    var build := Recorder(reportId, userId);
    updated := parameters;
    var p := 0;
    while p < PatternCount
      invariant 0 <= p <= PatternCount
      invariant updated == parameters + PatternRecords(matcher, build, line, p)
    {
      updated := AddMatches(updated, matcher(line, p), line, reportId, userId);
      PatternRecordsStep(parameters, matcher, build, line, p);
      p := p + 1;
    }
  }

  /** `parseHealthParameters`: the line loop, each line through the four patterns. */
  method ParseHealthParameters(matcher: Matcher, text: string, reportId: string, userId: string)
    returns (parameters: seq<Parameter>)
    ensures parameters == Extract(matcher, text, reportId, userId)
  {
    var build := Recorder(reportId, userId);
    parameters := [];
    var lines := Split(text, '\n');
    var i := 0;
    while i < |lines|
      invariant 0 <= i <= |lines|
      invariant parameters == TextRecords(matcher, build, lines[..i])
    {
      parameters := AddLine(parameters, matcher, lines[i], reportId, userId);
      TextRecordsStep(matcher, build, lines, i);
      i := i + 1;
    }
    assert lines[..i] == lines;
  }

  // ---- What every record satisfies ----

  /** Lower-casing maps whitespace to whitespace and nothing else to whitespace. */
  lemma LowerKeepsSpace(c: char)
    ensures IsSpace(LowerChar(c)) == IsSpace(c)
  {
  }

  /** A cleaned name is a fixed point of the lookup's own cleaning, so a
      record's name looks up the definition it was built from. */
  lemma CleanNameStable(raw: string)
    ensures Trim(Lower(Lower(Trim(raw)))) == Lower(Trim(raw))
  {
    var t := Trim(raw);
    var name := Lower(t);
    LowerIdempotent(t);
    if t != [] {
      LowerChars(t);
      assert name[0] == LowerChar(t[0]) && name[|name| - 1] == LowerChar(t[|t| - 1]);
      LowerKeepsSpace(t[0]);
      LowerKeepsSpace(t[|t| - 1]);
    }
    TrimOfTrimmed(name);
  }

  /** A record agrees with the catalog entry its name finds: band, category and
      status are the ones that entry gives for its value. */
  predicate ConsistentRecord(r: Parameter) {
    Lookup(r.name).Some? && AgreesWith(r, Lookup(r.name).value)
  }

  /** Band, category and status of a record are those `d` gives for its value. */
  predicate AgreesWith(r: Parameter, d: ParamDef) {
    && r.referenceRange == Bounds(d.min, d.max)
    && r.category == d.category
    && r.status == DetermineStatus(r.value, d).Name()
  }

  /** A match yields a record exactly when its name is found and its number is
      not NaN; the record carries the parsed value, the lower-cased matched unit
      or else the definition's unit, and the trimmed line. */
  lemma MakeRecordSpec(m: Match, line: string, reportId: string, userId: string)
    ensures MakeRecord(m, line, reportId, userId).Some? <==>
              Lookup(MatchName(m)).Some? && ParseFloat(m.number).Num?
    ensures MakeRecord(m, line, reportId, userId).Some? ==>
              var r := MakeRecord(m, line, reportId, userId).value;
              && ConsistentRecord(r)
              && r.name == MatchName(m)
              && Num(r.value) == ParseFloat(m.number)
              && r.unit == (if MatchUnit(m) != "" then MatchUnit(m) else Lookup(MatchName(m)).value.unit)
              && r.reportId == reportId && r.userId == userId
              && r.extractedFrom == Trim(line)
  {
    var name := MatchName(m);
    CleanNameStable(m.name);
    assert Lookup(name) == Lookup(Lower(Trim(m.name)));
    assert Trim(Lower(name)) == name;
  }

  /** Every record of a pattern's matches comes from one of them. */
  lemma {:induction false} MatchRecordsSound(build: Builder, ms: seq<Match>, line: string)
    ensures forall r :: r in MatchRecords(build, ms, line) ==> exists m :: m in ms && build(m, line) == Some(r)
    decreases |ms|
  {
    if ms != [] {
      var front := ms[..|ms| - 1];
      MatchRecordsSound(build, front, line);
      forall r | r in MatchRecords(build, ms, line)
        ensures exists m :: m in ms && build(m, line) == Some(r)
      {
        if r in MatchRecords(build, front, line) {
          var m :| m in front && build(m, line) == Some(r);
          assert m in ms;
        } else {
          assert ms[|ms| - 1] in ms;
        }
      }
    }
  }

  lemma {:induction false} PatternRecordsSound(matcher: Matcher, build: Builder, line: string, n: nat)
    ensures forall r :: r in PatternRecords(matcher, build, line, n) ==>
              exists p, m :: 0 <= p < n && m in matcher(line, p) && build(m, line) == Some(r)
  {
    if n > 0 {
      PatternRecordsSound(matcher, build, line, n - 1);
      MatchRecordsSound(build, matcher(line, n - 1), line);
    }
  }

  lemma {:induction false} TextRecordsSound(matcher: Matcher, build: Builder, lines: seq<string>)
    ensures forall r :: r in TextRecords(matcher, build, lines) ==>
              exists i, p, m :: 0 <= i < |lines| && 0 <= p < PatternCount && m in matcher(lines[i], p)
                                && build(m, lines[i]) == Some(r)
    decreases |lines|
  {
    if lines != [] {
      var front := lines[..|lines| - 1];
      var last := lines[|lines| - 1];
      TextRecordsSound(matcher, build, front);
      PatternRecordsSound(matcher, build, last, PatternCount);
      forall r | r in TextRecords(matcher, build, lines)
        ensures exists i, p, m :: 0 <= i < |lines| && 0 <= p < PatternCount && m in matcher(lines[i], p)
                                  && build(m, lines[i]) == Some(r)
      {
        if r in TextRecords(matcher, build, front) {
          var i, p, m :| 0 <= i < |front| && 0 <= p < PatternCount && m in matcher(front[i], p)
                         && build(m, front[i]) == Some(r);
          assert front[i] == lines[i];
        } else {
          var p, m :| 0 <= p < PatternCount && m in matcher(last, p) && build(m, last) == Some(r);
          assert lines[|lines| - 1] == last;
        }
      }
    }
  }

  /** `r` is the record of a match of one of the four patterns on one of `lines`. */
  predicate FromSomeMatch(matcher: Matcher, lines: seq<string>, reportId: string, userId: string, r: Parameter) {
    exists i, p, m :: 0 <= i < |lines| && 0 <= p < PatternCount && m in matcher(lines[i], p)
                      && MakeRecord(m, lines[i], reportId, userId) == Some(r)
  }

  /** Every record of `parseHealthParameters` comes from a match of one of the
      four patterns on one of the lines, and agrees with the catalog. */
  lemma ExtractSound(matcher: Matcher, text: string, reportId: string, userId: string)
    ensures forall r :: r in Extract(matcher, text, reportId, userId) ==>
              && ConsistentRecord(r)
              && r.reportId == reportId && r.userId == userId
              && FromSomeMatch(matcher, Split(text, '\n'), reportId, userId, r)
  {
    var lines := Split(text, '\n');
    var build := Recorder(reportId, userId);
    TextRecordsSound(matcher, build, lines);
    forall r | r in TextRecords(matcher, build, lines)
      ensures && ConsistentRecord(r) && r.reportId == reportId && r.userId == userId
              && FromSomeMatch(matcher, lines, reportId, userId, r)
    {
      var i, p, m :| 0 <= i < |lines| && 0 <= p < PatternCount && m in matcher(lines[i], p)
                     && build(m, lines[i]) == Some(r);
      RecorderSound(m, lines[i], reportId, userId, r);
    }
  }

  lemma RecorderSound(m: Match, line: string, reportId: string, userId: string, r: Parameter)
    requires Recorder(reportId, userId)(m, line) == Some(r)
    ensures MakeRecord(m, line, reportId, userId) == Some(r)
    ensures ConsistentRecord(r) && r.reportId == reportId && r.userId == userId
  {
    MakeRecordSpec(m, line, reportId, userId);
  }

  // ---- Order, and no deduplication ----

  /** The last line's records come after those of the lines before it. */
  lemma TextRecordsLast(matcher: Matcher, build: Builder, lines: seq<string>)
    requires lines != []
    ensures TextRecords(matcher, build, lines)
            == TextRecords(matcher, build, lines[..|lines| - 1]) + LineRecords(matcher, build, lines[|lines| - 1])
  {
  }

  /** Records follow line order: the records of two blocks of lines are those of
      the first block followed by those of the second. */
  lemma {:induction false} TextRecordsAppend(matcher: Matcher, build: Builder, a: seq<string>, b: seq<string>)
    ensures TextRecords(matcher, build, a + b) == TextRecords(matcher, build, a) + TextRecords(matcher, build, b)
    decreases |b|
  {
    if b == [] {
      assert a + b == a;
    } else {
      var front, last := b[..|b| - 1], b[|b| - 1];
      TextRecordsAppend(matcher, build, a, front);
      assert (a + b)[..|a + b| - 1] == a + front;
      assert (a + b)[|a + b| - 1] == last;
      TextRecordsLast(matcher, build, a + b);
      TextRecordsLast(matcher, build, b);
      ConcatAssoc(TextRecords(matcher, build, a), TextRecords(matcher, build, front), LineRecords(matcher, build, last));
    }
  }

  lemma ConcatAssoc(x: seq<Parameter>, y: seq<Parameter>, z: seq<Parameter>)
    ensures (x + y) + z == x + (y + z)
  {
  }

  /** The record of every accepted match is kept. */
  lemma {:induction false} MatchRecordsKeep(build: Builder, ms: seq<Match>, m: Match, line: string)
    requires m in ms && build(m, line).Some?
    ensures build(m, line).value in multiset(MatchRecords(build, ms, line))
    decreases |ms|
  {
    var front := ms[..|ms| - 1];
    if ms[|ms| - 1] != m {
      assert ms == front + [ms[|ms| - 1]];
      MatchRecordsKeep(build, front, m, line);
    }
  }

  /** Running more patterns only appends: the records of the first `a` patterns
      are a prefix of those of the first `b`. */
  lemma {:induction false} PatternRecordsPrefix(matcher: Matcher, build: Builder, line: string, a: nat, b: nat)
    requires a <= b
    ensures var x, y := PatternRecords(matcher, build, line, a), PatternRecords(matcher, build, line, b);
            |x| <= |y| && y[..|x|] == x
    decreases b
  {
    if a < b {
      PatternRecordsPrefix(matcher, build, line, a, b - 1);
      PatternRecordsLast(matcher, build, line, b);
      var x, y, z := PatternRecords(matcher, build, line, a), PatternRecords(matcher, build, line, b - 1),
                     PatternRecords(matcher, build, line, b);
      assert z[..|y|] == y;
      assert z[..|x|] == y[..|x|];
    }
  }

  /** The records of pattern `n - 1` come after those of the patterns before it. */
  lemma PatternRecordsLast(matcher: Matcher, build: Builder, line: string, n: nat)
    requires n > 0
    ensures PatternRecords(matcher, build, line, n)
            == PatternRecords(matcher, build, line, n - 1) + MatchRecords(build, matcher(line, n - 1), line)
  {
  }

  lemma MultisetOfPrefix(x: seq<Parameter>, y: seq<Parameter>)
    requires |x| <= |y| && y[..|x|] == x
    ensures multiset(x) <= multiset(y)
  {
    assert y == x + y[|x|..];
  }

  /** Running more patterns only adds records. */
  lemma PatternRecordsGrow(matcher: Matcher, build: Builder, line: string, a: nat, b: nat)
    requires a <= b
    ensures multiset(PatternRecords(matcher, build, line, a)) <= multiset(PatternRecords(matcher, build, line, b))
  {
    PatternRecordsPrefix(matcher, build, line, a, b);
    MultisetOfPrefix(PatternRecords(matcher, build, line, a), PatternRecords(matcher, build, line, b));
  }

  /** A record accepted under pattern `p` is among the records of patterns 0 .. n-1 for any n > p. */
  lemma CountUpTo(matcher: Matcher, build: Builder, line: string, m: Match, p: nat, n: nat)
    requires p < n
    requires m in matcher(line, p) && build(m, line).Some?
    ensures multiset(PatternRecords(matcher, build, line, n))[build(m, line).value] >= 1
  {
    MatchRecordsKeep(build, matcher(line, p), m, line);
    PatternRecordsGrow(matcher, build, line, p + 1, n);
  }

  /** The same text matched by two patterns gives the same record twice:
      nothing is deduplicated. */
  lemma MatchedTwiceKeptTwice(matcher: Matcher, build: Builder, line: string, m: Match, p: nat, q: nat)
    requires p < q < PatternCount
    requires m in matcher(line, p) && m in matcher(line, q)
    requires build(m, line).Some?
    ensures multiset(LineRecords(matcher, build, line))[build(m, line).value] >= 2
  {
    var r := build(m, line).value;
    CountUpTo(matcher, build, line, m, p, q);
    MatchRecordsKeep(build, matcher(line, q), m, line);
    var beforeQ := PatternRecords(matcher, build, line, q);
    var mq := MatchRecords(build, matcher(line, q), line);
    assert multiset(beforeQ + mq)[r] >= 2;
    PatternRecordsGrow(matcher, build, line, q + 1, PatternCount);
  }

  /** The records of a text split around one line. */
  lemma TextRecordsAround(matcher: Matcher, build: Builder, a: seq<string>, l: string, b: seq<string>)
    ensures TextRecords(matcher, build, a + [l] + b)
            == (TextRecords(matcher, build, a) + LineRecords(matcher, build, l)) + TextRecords(matcher, build, b)
  {
    var front := a + [l];
    assert front[..|front| - 1] == a && front[|front| - 1] == l;
    TextRecordsAppend(matcher, build, front, b);
    TextRecordsLast(matcher, build, front);
  }

  /** The records of one line are among the records of the whole text. */
  lemma LineRecordsInText(matcher: Matcher, build: Builder, lines: seq<string>, i: nat)
    requires i < |lines|
    ensures multiset(LineRecords(matcher, build, lines[i])) <= multiset(TextRecords(matcher, build, lines))
  {
    var a, l, b := lines[..i], lines[i], lines[i + 1..];
    assert lines == a + [l] + b;
    TextRecordsAround(matcher, build, a, l, b);
    MultisetOfMiddle(TextRecords(matcher, build, a), LineRecords(matcher, build, l), TextRecords(matcher, build, b));
  }

  lemma MultisetOfMiddle(x: seq<Parameter>, y: seq<Parameter>, z: seq<Parameter>)
    ensures multiset(y) <= multiset((x + y) + z)
  {
  }

  /** Every accepted match on every line gives a record of `parseHealthParameters`. */
  lemma ExtractComplete(matcher: Matcher, text: string, reportId: string, userId: string, i: nat, p: nat, m: Match)
    requires i < |Split(text, '\n')| && p < PatternCount
    requires m in matcher(Split(text, '\n')[i], p)
    requires MakeRecord(m, Split(text, '\n')[i], reportId, userId).Some?
    ensures MakeRecord(m, Split(text, '\n')[i], reportId, userId).value in Extract(matcher, text, reportId, userId)
  {
    var lines, build := Split(text, '\n'), Recorder(reportId, userId);
    CountUpTo(matcher, build, lines[i], m, p, PatternCount);
    LineRecordsInText(matcher, build, lines, i);
  }

  /** A match that two patterns both find on a line gives its record twice in
      the result of `parseHealthParameters`: nothing is deduplicated. */
  lemma ExtractKeepsTwice(matcher: Matcher, text: string, reportId: string, userId: string, i: nat, p: nat, q: nat, m: Match)
    requires i < |Split(text, '\n')| && p < q < PatternCount
    requires m in matcher(Split(text, '\n')[i], p) && m in matcher(Split(text, '\n')[i], q)
    requires MakeRecord(m, Split(text, '\n')[i], reportId, userId).Some?
    ensures multiset(Extract(matcher, text, reportId, userId))[MakeRecord(m, Split(text, '\n')[i], reportId, userId).value] >= 2
  {
    var lines, build := Split(text, '\n'), Recorder(reportId, userId);
    MatchedTwiceKeptTwice(matcher, build, lines[i], m, p, q);
    LineRecordsInText(matcher, build, lines, i);
  }
}
