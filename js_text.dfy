/**
 * The pieces of JavaScript string behaviour the lab-report core relies on:
 * the regex classes `\s` and `\w`, `toLowerCase`/`toUpperCase` (on ASCII
 * letters), `trim`, `includes`, `split` on one character, the capitalising
 * idiom `s.charAt(0).toUpperCase() + s.slice(1)`, and decimal formatting of
 * integers in template literals.
 */
module JsText {

  /** JavaScript's WhiteSpace and LineTerminator characters: the class `\s`
      and the characters `String.prototype.trim` removes. */
  predicate IsSpace(c: char) {
    || c == ' ' || c == '\t' || c == '\n' || c == '\r'
    || c == '\U{000B}' || c == '\U{000C}' || c == '\U{00A0}' || c == '\U{1680}'
    || ('\U{2000}' <= c <= '\U{200A}')
    || c == '\U{2028}' || c == '\U{2029}' || c == '\U{202F}' || c == '\U{205F}'
    || c == '\U{3000}' || c == '\U{FEFF}'
  }

  predicate IsDigit(c: char) {
    '0' <= c <= '9'
  }

  /** The regex class `\w` (no `u` flag): ASCII letters, digits and `_`. */
  predicate IsWordChar(c: char) {
    'a' <= c <= 'z' || 'A' <= c <= 'Z' || IsDigit(c) || c == '_'
  }

  function LowerChar(c: char): char {
    if 'A' <= c <= 'Z' then (c as int + 32) as char else c
  }

  function UpperChar(c: char): char {
    if 'a' <= c <= 'z' then (c as int - 32) as char else c
  }

  /** `s.toLowerCase()`, restricted to ASCII letters. */
  function Lower(s: string): (r: string)
    ensures |r| == |s|
  {
    if s == [] then [] else [LowerChar(s[0])] + Lower(s[1..])
  }

  /** Lower-casing works character by character. */
  lemma {:induction false} LowerChars(s: string)
    ensures forall i :: 0 <= i < |s| ==> Lower(s)[i] == LowerChar(s[i])
  {
    if s != [] {
      LowerChars(s[1..]);
    }
  }

  lemma LowerIdempotent(s: string)
    ensures Lower(Lower(s)) == Lower(s)
  {
    LowerChars(s);
    LowerChars(Lower(s));
  }

  /** A string without upper-case letters is its own lower case. */
  lemma LowerOfLowercase(s: string)
    requires forall c :: c in s ==> !('A' <= c <= 'Z')
    ensures Lower(s) == s
  {
    LowerChars(s);
    assert forall i :: 0 <= i < |s| ==> s[i] in s;
  }

  /** A name already in lower case and trimmed is unchanged by `toLowerCase().trim()`. */
  lemma TrimLowerOfClean(s: string)
    requires forall c :: c in s ==> !('A' <= c <= 'Z')
    requires s == [] || (!IsSpace(s[0]) && !IsSpace(s[|s| - 1]))
    ensures Trim(Lower(s)) == s
  {
    LowerOfLowercase(s);
    TrimOfTrimmed(s);
  }

  lemma LowerAppend(a: string, b: string)
    ensures Lower(a + b) == Lower(a) + Lower(b)
  {
    LowerChars(a + b);
    LowerChars(a);
    LowerChars(b);
  }

  /** `s.charAt(0).toUpperCase() + s.slice(1)`. */
  function Capitalize(s: string): string {
    if s == [] then [] else [UpperChar(s[0])] + s[1..]
  }

  /** `s.trimStart()`: leading whitespace removed. */
  function TrimStart(s: string): (r: string)
    ensures |r| <= |s|
    ensures r == [] || !IsSpace(r[0])
    decreases |s|
  {
    if |s| > 0 && IsSpace(s[0]) then TrimStart(s[1..]) else s
  }

  /** `s.trimEnd()`: trailing whitespace removed. */
  function TrimEnd(s: string): (r: string)
    ensures |r| <= |s|
    ensures r == [] || !IsSpace(r[|r| - 1])
    decreases |s|
  {
    if |s| > 0 && IsSpace(s[|s| - 1]) then TrimEnd(s[..|s| - 1]) else s
  }

  /** What `trimStart` leaves is a suffix, and only whitespace went. */
  lemma {:induction false} TrimStartSpaces(s: string)
    ensures TrimStart(s) == s[|s| - |TrimStart(s)|..]
    ensures forall i :: 0 <= i < |s| - |TrimStart(s)| ==> IsSpace(s[i])
    decreases |s|
  {
    if |s| > 0 && IsSpace(s[0]) {
      TrimStartSpaces(s[1..]);
    }
  }

  /** What `trimEnd` leaves is a prefix, and only whitespace went. */
  lemma {:induction false} TrimEndSpaces(s: string)
    ensures TrimEnd(s) == s[..|TrimEnd(s)|]
    ensures forall i :: |TrimEnd(s)| <= i < |s| ==> IsSpace(s[i])
    decreases |s|
  {
    if |s| > 0 && IsSpace(s[|s| - 1]) {
      TrimEndSpaces(s[..|s| - 1]);
    }
  }

  /** `s.trim()`: no whitespace at either end. */
  function Trim(s: string): (r: string)
    ensures |r| <= |s|
    ensures r == [] || (!IsSpace(r[0]) && !IsSpace(r[|r| - 1]))
  {
    var t := TrimStart(s);
    TrimEndSpaces(t);
    TrimEnd(t)
  }

  /** Where the trimmed string starts in the original. */
  function TrimOffset(s: string): (k: nat)
    ensures k + |Trim(s)| <= |s|
  {
    |s| - |TrimStart(s)|
  }

  /** The trimmed string is the piece of the original at `TrimOffset(s)`:
      whitespace went from the front and the back, and nothing else. */
  lemma TrimSpec(s: string)
    ensures s[TrimOffset(s)..TrimOffset(s) + |Trim(s)|] == Trim(s)
    ensures forall i :: 0 <= i < TrimOffset(s) ==> IsSpace(s[i])
    ensures forall i :: TrimOffset(s) + |Trim(s)| <= i < |s| ==> IsSpace(s[i])
  {
    var t := TrimStart(s);
    var r := TrimEnd(t);
    var k := |s| - |t|;
    TrimStartSpaces(s);
    TrimEndSpaces(t);
    assert s[k..k + |r|] == r by {
      assert s[k..][..|r|] == r;
    }
    forall i | k + |r| <= i < |s|
      ensures IsSpace(s[i])
    {
      assert s[i] == t[i - k];
    }
  }

  /** The trimmed string occurs in the original. */
  lemma TrimContained(s: string)
    ensures Contains(s, Trim(s))
  {
    TrimSpec(s);
    assert OccursAt(s, Trim(s), TrimOffset(s));
  }

  /** A string without whitespace at either end is its own trim. */
  lemma TrimOfTrimmed(s: string)
    requires s == [] || (!IsSpace(s[0]) && !IsSpace(s[|s| - 1]))
    ensures Trim(s) == s
  {
  }

  /** `s.slice(i, i + t.length) === t`. */
  predicate OccursAt(s: string, t: string, i: int) {
    0 <= i && i + |t| <= |s| && s[i..i + |t|] == t
  }

  /** `s.includes(t)`. */
  predicate Contains(s: string, t: string) {
    exists i | 0 <= i <= |s| - |t| :: OccursAt(s, t, i)
  }

  lemma ContainsAt(s: string, t: string, i: int)
    requires OccursAt(s, t, i)
    ensures Contains(s, t)
  {
  }

  lemma ContainsItself(s: string)
    ensures Contains(s, s) && Contains(s, "")
  {
    assert OccursAt(s, s, 0);
    assert OccursAt(s, "", 0);
  }

  /** Every character of a contained string occurs in the container. */
  lemma ContainsChars(s: string, t: string)
    requires Contains(s, t)
    ensures forall c :: c in t ==> c in s
  {
    var i :| 0 <= i <= |s| - |t| && OccursAt(s, t, i);
    forall c | c in t
      ensures c in s
    {
      var j :| 0 <= j < |t| && t[j] == c;
      assert s[i + j] == s[i..i + |t|][j];
    }
  }

  /** A string holding a character the container lacks is not contained in it. */
  lemma NotContainedByChar(s: string, t: string, c: char)
    requires c in t && c !in s
    ensures !Contains(s, t)
  {
    if Contains(s, t) {
      ContainsChars(s, t);
    }
  }

  /** Computable form of "every character of `t` occurs in `s`". */
  predicate CharsWithin(t: string, s: string) {
    t == [] || (t[0] in s && CharsWithin(t[1..], s))
  }

  lemma {:induction false} CharsWithinMeaning(t: string, s: string)
    ensures CharsWithin(t, s) <==> forall c :: c in t ==> c in s
  {
    if t != [] {
      CharsWithinMeaning(t[1..], s);
      assert t == [t[0]] + t[1..];
    }
  }

  /** A string holding a character the container lacks is not contained in it. */
  lemma NotContainedByChars(s: string, t: string)
    requires !CharsWithin(t, s)
    ensures !Contains(s, t)
  {
    CharsWithinMeaning(t, s);
    if Contains(s, t) {
      ContainsChars(s, t);
    }
  }

  /** Containment is transitive: `s.includes(t) && t.includes(u)` gives `s.includes(u)`. */
  lemma ContainsTransitive(s: string, t: string, u: string)
    requires Contains(s, t) && Contains(t, u)
    ensures Contains(s, u)
  {
    var i :| 0 <= i <= |s| - |t| && OccursAt(s, t, i);
    var j :| 0 <= j <= |t| - |u| && OccursAt(t, u, j);
    assert s[i + j..i + j + |u|] == u by {
      forall k | 0 <= k < |u|
        ensures s[i + j..i + j + |u|][k] == u[k]
      {
        assert t[j..j + |u|][k] == u[k];
        assert s[i..i + |t|][j + k] == t[j + k];
      }
    }
    assert OccursAt(s, u, i + j);
  }

  /** Lower-casing keeps an occurrence where it was. */
  lemma ContainsLower(s: string, t: string)
    requires Contains(s, t)
    ensures Contains(Lower(s), Lower(t))
  {
    var i :| 0 <= i <= |s| - |t| && OccursAt(s, t, i);
    LowerChars(s);
    LowerChars(t);
    assert Lower(s)[i..i + |t|] == Lower(t) by {
      forall k | 0 <= k < |t|
        ensures Lower(s)[i..i + |t|][k] == Lower(t)[k]
      {
        assert s[i..i + |t|][k] == t[k];
      }
    }
    assert OccursAt(Lower(s), Lower(t), i);
  }

  /** The parts of a concatenation are contained in it. */
  lemma ContainsConcat(a: string, b: string, c: string)
    ensures Contains(a + b + c, b)
  {
    assert (a + b + c)[|a|..|a| + |b|] == b;
    assert OccursAt(a + b + c, b, |a|);
  }

  /** `s.split(sep)` for a one-character separator. */
  function Split(s: string, sep: char): (parts: seq<string>)
    ensures |parts| >= 1
    ensures forall p :: p in parts ==> sep !in p
    decreases |s|
  {
    if |s| == 0 then [""]
    else
      var rest := Split(s[1..], sep);
      if s[0] == sep then [""] + rest else [[s[0]] + rest[0]] + rest[1..]
  }

  /** `parts.join(sep)`. */
  function Join(parts: seq<string>, sep: char): string
    requires |parts| >= 1
    decreases |parts|
  {
    if |parts| == 1 then parts[0] else parts[0] + [sep] + Join(parts[1..], sep)
  }

  /** Splitting loses nothing: joining the pieces again gives the text back. */
  lemma {:induction false} SplitJoin(s: string, sep: char)
    ensures Join(Split(s, sep), sep) == s
  {
    if |s| > 0 {
      var rest := Split(s[1..], sep);
      SplitJoin(s[1..], sep);
      if s[0] == sep {
        assert ([""] + rest)[1..] == rest;
      } else {
        var parts := [[s[0]] + rest[0]] + rest[1..];
        if |rest| == 1 {
          assert Join(parts, sep) == [s[0]] + rest[0];
        } else {
          assert parts[1..] == rest[1..];
          assert Join(rest, sep) == rest[0] + [sep] + Join(rest[1..], sep);
          assert Join(parts, sep) == [s[0]] + rest[0] + [sep] + Join(rest[1..], sep);
        }
      }
      assert s == [s[0]] + s[1..];
    }
  }

  function DigitChar(d: nat): (c: char)
    requires d < 10
    ensures IsDigit(c)
  {
    ('0' as int + d) as char
  }

  /** Decimal digits of a natural number, as `${n}` prints them. */
  function NatToString(n: nat): (r: string)
    ensures |r| >= 1 && forall i :: 0 <= i < |r| ==> IsDigit(r[i])
    decreases n
  {
    if n < 10 then [DigitChar(n)] else NatToString(n / 10) + [DigitChar(n % 10)]
  }

  /** `${i}` for an integer. */
  function IntToString(i: int): string {
    if i < 0 then "-" + NatToString(-i) else NatToString(i)
  }
}
