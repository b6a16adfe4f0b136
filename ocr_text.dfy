/**
 * The text helpers of src/utils/ocrProcessor.js: `cleanExtractedText`, a
 * chain of three regular-expression replacements and a trim, and
 * `detectHealthContent`, a keyword filter with a threshold.
 */
module OcrText {
  import opened JsText

  // ---- cleanExtractedText ----

  /** `.replace(/\s+/g, ' ')`: every run of whitespace becomes one space. */
  function CollapseSpaces(s: string): (r: string)
    ensures |r| <= |s|
    decreases |s|
  {
    if s == [] then []
    else if IsSpace(s[0]) then [' '] + CollapseSpaces(TrimStart(s[1..]))
    else [s[0]] + CollapseSpaces(s[1..])
  }

  /** The end of the longest match of `\n\s*\n` that starts at a newline at `i`,
      or `i` when there is none: `\s*` is greedy, so the match runs to the last
      newline of the whitespace after `i`. */
  function BlankRunEnd(s: string, i: nat, j: nat, last: nat): (e: nat)
    requires i < j <= |s| && i <= last <= j
    ensures i <= e <= |s|
    decreases |s| - j
  {
    if j < |s| && IsSpace(s[j]) then BlankRunEnd(s, i, j + 1, if s[j] == '\n' then j + 1 else last)
    else last
  }

  /** `.replace(/\n\s*\n/g, '\n')`, scanning from position `i`. */
  function JoinBlankLines(s: string): (r: string)
    decreases |s|
  {
    if s == [] then []
    else if s[0] == '\n' then
      var e := BlankRunEnd(s, 0, 1, 0);
      if e > 0 then ['\n'] + JoinBlankLines(s[e..]) else ['\n'] + JoinBlankLines(s[1..])
    else [s[0]] + JoinBlankLines(s[1..])
  }

  /** The characters the class `[\w\s\n.,;:()\[\]{}\-\/=<>]` admits. */
  predicate Allowed(c: char) {
    IsWordChar(c) || IsSpace(c) || c in ".,;:()[]{}-/=<>"
  }

  /** `.replace(/[^...]/g, '')`: every other character is dropped. */
  function KeepAllowed(s: string): (r: string)
    ensures |r| <= |s|
    decreases |s|
  {
    if s == [] then [] else (if Allowed(s[0]) then [s[0]] else []) + KeepAllowed(s[1..])
  }

  /** `cleanExtractedText(text)`; the empty string is the only falsy string. */
  function CleanExtractedText(text: string): string {
    if text == "" then "" else Trim(KeepAllowed(JoinBlankLines(CollapseSpaces(text))))
  }

  // ---- What cleaning gives ----

  /** The only whitespace left after collapsing is the plain space. */
  lemma {:induction false} CollapseSpacesPlain(s: string)
    ensures forall c :: c in CollapseSpaces(s) && IsSpace(c) ==> c == ' '
    decreases |s|
  {
    if s != [] {
      if IsSpace(s[0]) {
        CollapseSpacesPlain(TrimStart(s[1..]));
      } else {
        CollapseSpacesPlain(s[1..]);
      }
    }
  }

  /** Without a newline the blank-line step changes nothing. */
  lemma {:induction false} JoinBlankLinesNoNewline(s: string)
    requires '\n' !in s
    ensures JoinBlankLines(s) == s
    decreases |s|
  {
    if s != [] {
      assert forall c :: c in s[1..] ==> c in s;
      JoinBlankLinesNoNewline(s[1..]);
    }
  }

  lemma {:induction false} KeepAllowedChars(s: string)
    ensures forall c :: c in KeepAllowed(s) ==> c in s && Allowed(c)
    decreases |s|
  {
    if s != [] {
      KeepAllowedChars(s[1..]);
    }
  }

  /** Everything `Trim` keeps comes from its argument. */
  lemma TrimChars(s: string)
    ensures forall c :: c in Trim(s) ==> c in s
  {
    TrimSpec(s);
    var k := TrimOffset(s);
    forall c | c in Trim(s)
      ensures c in s
    {
      var i :| 0 <= i < |Trim(s)| && Trim(s)[i] == c;
      assert s[k..k + |Trim(s)|][i] == s[k + i];
    }
  }

  /** The cleaned text: the blank-line step is a no-op, and every character left
      is a word character, a plain space or one of the listed punctuation marks,
      so no newline or tab survives; it neither starts nor ends with whitespace
      and is never longer than the input. */
  lemma CleanExtractedTextSpec(text: string)
    ensures text != "" ==> JoinBlankLines(CollapseSpaces(text)) == CollapseSpaces(text)
    ensures var r := CleanExtractedText(text);
            && |r| <= |text|
            && (r == [] || (!IsSpace(r[0]) && !IsSpace(r[|r| - 1])))
            && (forall c :: c in r ==> IsWordChar(c) || c == ' ' || c in ".,;:()[]{}-/=<>")
            && '\n' !in r && '\t' !in r
  {
    if text != "" {
      var collapsed := CollapseSpaces(text);
      CollapseSpacesPlain(text);
      JoinBlankLinesNoNewline(collapsed);
      KeepAllowedChars(collapsed);
      TrimChars(KeepAllowed(collapsed));
    }
  }

  /** Collapsing comes before filtering, so dropping a character between two
      spaces leaves a double space: `"a % b"` cleans to `"a  b"`. */
  lemma CleanKeepsDoubleSpace()
    ensures CleanExtractedText("a % b") == "a  b"
  {
    CollapseExample();
    JoinBlankLinesNoNewline("a % b");
    KeepExample();
    TrimOfTrimmed("a  b");
  }

  /** The steps of the example, each on its own. */
  lemma CollapseExample()
    ensures CollapseSpaces("a % b") == "a % b"
  {
  }

  lemma KeepExample()
    ensures KeepAllowed("a % b") == "a  b"
  {
  }

  // ---- detectHealthContent ----

  const HealthKeywords: seq<string> := [
    "glucose", "cholesterol", "hemoglobin", "blood", "urine", "test", "result",
    "normal", "abnormal", "mg/dl", "mmol/l", "g/dl", "lab", "laboratory",
    "patient", "doctor", "hospital", "clinic", "medical", "report", "serum",
    "plasma", "analysis", "reference", "range", "high", "low", "within", "limits"
  ]

  datatype HealthContent = HealthContent(isHealthRelated: bool, confidence: real,
                                         foundKeywords: seq<string>, textLength: nat)

  /** `keywords.filter(k => textLower.includes(k.toLowerCase()))`, in keyword order. */
  function FoundKeywords(keywords: seq<string>, textLower: string): seq<string>
    decreases |keywords|
  {
    if keywords == [] then []
    else
      var k := keywords[|keywords| - 1];
      FoundKeywords(keywords[..|keywords| - 1], textLower) + (if Contains(textLower, Lower(k)) then [k] else [])
  }

  /** `detectHealthContent(text)`. */
  function DetectHealthContent(text: string): HealthContent {
    if text == "" then HealthContent(false, 0.0, [], 0)
    else
      var found := FoundKeywords(HealthKeywords, Lower(text));
      var ratio := (|found| as real / |HealthKeywords| as real) * 100.0;
      HealthContent(|found| >= 2, if ratio < 100.0 then ratio else 100.0, found, |text|)
  }

  // ---- What detection gives ----

  /** A keyword is reported exactly when its lower case occurs in the text. */
  lemma {:induction false} FoundKeywordsMembers(keywords: seq<string>, textLower: string)
    ensures forall k :: k in FoundKeywords(keywords, textLower) <==> k in keywords && Contains(textLower, Lower(k))
    ensures |FoundKeywords(keywords, textLower)| <= |keywords|
    decreases |keywords|
  {
    if keywords != [] {
      var init := keywords[..|keywords| - 1];
      FoundKeywordsMembers(init, textLower);
      assert keywords == init + [keywords[|keywords| - 1]];
    }
  }

  /** The reported keywords keep keyword order: filtering a concatenation gives
      the concatenation of the filtered parts. */
  lemma {:induction false} FoundKeywordsAppend(a: seq<string>, b: seq<string>, textLower: string)
    ensures FoundKeywords(a + b, textLower) == FoundKeywords(a, textLower) + FoundKeywords(b, textLower)
    decreases |b|
  {
    if b == [] {
      assert a + b == a;
    } else {
      var init := b[..|b| - 1];
      assert (a + b)[..|a + b| - 1] == a + init;
      FoundKeywordsAppend(a, init, textLower);
    }
  }

  /** The result of a text: empty text gives the fixed negative answer;
      otherwise the text is health-related exactly when two keywords are found,
      the confidence is the found share in percent, never above 100, and the
      length is the text's. */
  lemma DetectHealthContentSpec(text: string)
    ensures text == "" ==> DetectHealthContent(text) == HealthContent(false, 0.0, [], 0)
    ensures text != "" ==>
              var h := DetectHealthContent(text);
              && h.foundKeywords == FoundKeywords(HealthKeywords, Lower(text))
              && (h.isHealthRelated <==> |h.foundKeywords| >= 2)
              && h.confidence * 29.0 == |h.foundKeywords| as real * 100.0
              && 0.0 <= h.confidence <= 100.0
              && h.textLength == |text|
  {
    if text != "" {
      var found := FoundKeywords(HealthKeywords, Lower(text));
      FoundKeywordsMembers(HealthKeywords, Lower(text));
      assert |HealthKeywords| == 29;
      Percent(|found|, 29);
    }
  }

  /** `(n / total) * 100` for a part `n` of a positive total lies in [0, 100]
      and times the total is `n * 100`. */
  lemma Percent(n: nat, total: nat)
    requires 0 < total && n <= total
    ensures 0.0 <= (n as real / total as real) * 100.0 <= 100.0
    ensures (n as real / total as real) * 100.0 * total as real == n as real * 100.0
  {
    var q := n as real / total as real;
    assert q * total as real == n as real;
    assert q <= 1.0 by {
      if q > 1.0 {
        assert q * total as real > 1.0 * total as real;
      }
    }
    assert q * 100.0 * total as real == (q * total as real) * 100.0;
  }

  /** Two different reported keywords make the text health-related. */
  lemma TwoKeywordsSuffice(text: string, k1: string, k2: string)
    requires k1 != k2
    requires k1 in HealthKeywords && Contains(Lower(text), Lower(k1))
    requires k2 in HealthKeywords && Contains(Lower(text), Lower(k2))
    ensures DetectHealthContent(text).isHealthRelated
  {
    TwoFound(HealthKeywords, Lower(text), k1, k2);
    if text == "" {
      NotContainedByChars("", Lower(k1));
    }
  }

  lemma TwoFound(keywords: seq<string>, textLower: string, k1: string, k2: string)
    requires k1 != k2
    requires k1 in keywords && Contains(textLower, Lower(k1))
    requires k2 in keywords && Contains(textLower, Lower(k2))
    ensures |FoundKeywords(keywords, textLower)| >= 2
  {
    var found := FoundKeywords(keywords, textLower);
    FoundKeywordsMembers(keywords, textLower);
    assert k1 in found && k2 in found;
  }

  /** Two keywords of which the first contains the second. */
  lemma KeywordInKeyword(outer: string, inner: string, at: nat)
    requires forall c :: c in outer ==> !('A' <= c <= 'Z')
    requires OccursAt(outer, inner, at)
    ensures Lower(outer) == outer && Lower(inner) == inner && Contains(outer, inner)
  {
    LowerOfLowercase(outer);
    assert forall c :: c in inner ==> c in outer by {
      ContainsChars(outer, inner);
    }
    LowerOfLowercase(inner);
  }

  /** "abnormal" contains the keyword "normal", so a text containing it is
      health-related on its own. */
  lemma AbnormalIsHealthRelated(text: string)
    requires Contains(Lower(text), "abnormal")
    ensures DetectHealthContent(text).isHealthRelated
  {
    KeywordInKeyword("abnormal", "normal", 2);
    ContainsTransitive(Lower(text), "abnormal", "normal");
    TwoKeywordsSuffice(text, "abnormal", "normal");
  }

  /** Likewise "laboratory" contains the keyword "lab". */
  lemma LaboratoryIsHealthRelated(text: string)
    requires Contains(Lower(text), "laboratory")
    ensures DetectHealthContent(text).isHealthRelated
  {
    KeywordInKeyword("laboratory", "lab", 0);
    ContainsTransitive(Lower(text), "laboratory", "lab");
    TwoKeywordsSuffice(text, "laboratory", "lab");
  }
}
