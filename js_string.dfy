/** The JavaScript string operations the core relies on: `trim`, `.length` and `join('\n')`,
    with a newline splitter as the inverse of `join`. */
module JsString {

  /** The code points `String.prototype.trim` strips: the ECMAScript WhiteSpace class
      (tab, vertical tab, form feed, ZWNBSP and the seventeen space separators of Unicode
      category Zs) and the LineTerminator class (LF, CR, LS, PS). */
  predicate IsWhitespace(c: char) {
    c == '\t' || c == '\n' || c == '\U{000B}' || c == '\U{000C}' || c == '\r' ||
    c == ' ' || c == '\U{00A0}' || c == '\U{1680}' || ('\U{2000}' <= c <= '\U{200A}') ||
    c == '\U{2028}' || c == '\U{2029}' || c == '\U{202F}' || c == '\U{205F}' ||
    c == '\U{3000}' || c == '\U{FEFF}'
  }

  /** Every character of `s[lo..hi]` is whitespace. */
  predicate WhitespaceBetween(s: string, lo: nat, hi: nat)
    requires lo <= hi <= |s|
  {
    forall m :: lo <= m < hi ==> IsWhitespace(s[m])
  }

  predicate AllWhitespace(s: string) {
    WhitespaceBetween(s, 0, |s|)
  }

  /** The first position at or after `i` that holds no whitespace, or the end of `s`. */
  function SkipLeading(s: string, i: nat): (k: nat)
    requires i <= |s|
    ensures i <= k <= |s| && WhitespaceBetween(s, i, k)
    ensures k == |s| || !IsWhitespace(s[k])
    decreases |s| - i
  {
    if i < |s| && IsWhitespace(s[i]) then SkipLeading(s, i + 1) else i
  }

  /** The position just after the last character before `j` that holds no whitespace,
      looking no further back than `lo`. */
  function SkipTrailing(s: string, lo: nat, j: nat): (k: nat)
    requires lo <= j <= |s|
    ensures lo <= k <= j && WhitespaceBetween(s, k, j)
    ensures k == lo || !IsWhitespace(s[k - 1])
    decreases j
  {
    if j > lo && IsWhitespace(s[j - 1]) then SkipTrailing(s, lo, j - 1) else j
  }

  /** `s.trim()`: the infix of `s` between its leading and its trailing whitespace. */
  function Trim(s: string): (r: string)
    ensures var k := SkipLeading(s, 0);
      k + |r| <= |s| && r == s[k..k + |r|] &&
      WhitespaceBetween(s, 0, k) && WhitespaceBetween(s, k + |r|, |s|)
    ensures r == "" || (!IsWhitespace(r[0]) && !IsWhitespace(r[|r| - 1]))
  {
    var k := SkipLeading(s, 0);
    s[k..SkipTrailing(s, k, |s|)]
  }

  /** The trimmed text is empty exactly when every character is whitespace. */
  lemma TrimEmptyIff(s: string)
    ensures Trim(s) == "" <==> AllWhitespace(s)
  {
  }

  /** `!s.trim()`: the text is empty or whitespace only. */
  predicate IsBlank(s: string) {
    Trim(s) == ""
  }

  /** Trimming twice gives what trimming once gives. */
  lemma TrimIdempotent(s: string)
    ensures Trim(Trim(s)) == Trim(s)
  {
    var r := Trim(s);
    if r != "" {
      assert SkipLeading(r, 0) == 0;
      assert SkipTrailing(r, 0, |r|) == |r|;
      assert r[0..|r|] == r;
    }
  }

  /** How many UTF-16 code units a code point takes: two above U+FFFF, one otherwise. */
  function Utf16Units(c: char): nat {
    if c as int < 0x1_0000 then 1 else 2
  }

  /** The UTF-16 code units of `s[i..j]`. */
  function Utf16Span(s: string, i: nat, j: nat): (n: nat)
    requires i <= j <= |s|
    ensures j - i <= n <= 2 * (j - i)
    decreases j - i
  {
    if i == j then 0 else Utf16Units(s[i]) + Utf16Span(s, i + 1, j)
  }

  /** `s.length`, which JavaScript counts in UTF-16 code units, not in code points. */
  function Utf16Length(s: string): (n: nat)
    ensures |s| <= n <= 2 * |s|
  {
    Utf16Span(s, 0, |s|)
  }

  lemma {:induction false} Utf16SpanSplit(s: string, i: nat, k: nat, j: nat)
    requires i <= k <= j <= |s|
    ensures Utf16Span(s, i, j) == Utf16Span(s, i, k) + Utf16Span(s, k, j)
    decreases k - i
  {
    if i < k {
      Utf16SpanSplit(s, i + 1, k, j);
    }
  }

  lemma {:induction false} Utf16SpanShift(s: string, a: nat, b: nat, i: nat, j: nat)
    requires a <= b <= |s| && i <= j <= b - a
    ensures Utf16Span(s[a..b], i, j) == Utf16Span(s, a + i, a + j)
    decreases j - i
  {
    if i < j {
      assert s[a..b][i] == s[a + i];
      Utf16SpanShift(s, a, b, i + 1, j);
    }
  }

  /** An infix of a string is never longer, in code units, than the string. */
  lemma Utf16LengthInfix(s: string, k: nat, l: nat)
    requires k <= l <= |s|
    ensures Utf16Length(s[k..l]) <= Utf16Length(s)
  {
    assert Utf16Length(s[k..l]) == Utf16Span(s[k..l], 0, l - k);
    Utf16SpanShift(s, k, l, 0, l - k);
    Utf16SpanSplit(s, 0, k, |s|);
    Utf16SpanSplit(s, k, l, |s|);
  }

  /** Trimming never makes a string longer, in code units. */
  lemma TrimShortens(s: string)
    ensures Utf16Length(Trim(s)) <= Utf16Length(s)
  {
    var k := SkipLeading(s, 0);
    Utf16LengthInfix(s, k, SkipTrailing(s, k, |s|));
  }

  /** `lines.join('\n')`: the lines with one newline between neighbours and none at the end. */
  function JoinLines(lines: seq<string>): string {
    if |lines| == 0 then ""
    else if |lines| == 1 then lines[0]
    else lines[0] + "\n" + JoinLines(lines[1..])
  }

  /** A join is empty when there are no lines, and otherwise opens with the first line. */
  lemma JoinOpensWithFirst(lines: seq<string>)
    ensures lines == [] ==> JoinLines(lines) == ""
    ensures lines != [] ==> |lines[0]| <= |JoinLines(lines)| && JoinLines(lines)[..|lines[0]|] == lines[0]
  {
    if |lines| > 1 {
      var r := JoinLines(lines);
      assert r == lines[0] + ("\n" + JoinLines(lines[1..]));
    }
  }

  /** The pieces between newlines, as `s.split('\n')` gives them (an empty string gives one
      empty piece). The core never splits; this is the inverse of `JoinLines` that states
      what the bullet text holds. */
  function SplitLines(s: string): (r: seq<string>)
    ensures |r| > 0
  {
    if |s| == 0 then [""]
    else
      var rest := SplitLines(s[1..]);
      if s[0] == '\n' then [""] + rest else [[s[0]] + rest[0]] + rest[1..]
  }

  lemma {:induction false} SplitNoNewline(s: string)
    requires '\n' !in s
    ensures SplitLines(s) == [s]
  {
    if |s| > 0 {
      assert s[0] in s;
      assert forall c :: c in s[1..] ==> c in s;
      SplitNoNewline(s[1..]);
      assert [s[0]] + s[1..] == s;
    }
  }

  lemma {:induction false} SplitAtNewline(line: string, rest: string)
    requires '\n' !in line
    ensures SplitLines(line + "\n" + rest) == [line] + SplitLines(rest)
  {
    var s := line + "\n" + rest;
    if |line| == 0 {
      assert s == "\n" + rest;
      assert s[1..] == rest;
    } else {
      assert line[0] in line;
      assert forall c :: c in line[1..] ==> c in line;
      assert s[1..] == line[1..] + "\n" + rest;
      SplitAtNewline(line[1..], rest);
      assert [line[0]] + line[1..] == line;
    }
  }

  /** Splitting undoes joining, as long as no line holds a newline itself and there is at
      least one line (`[].join('\n')` and `[""].join('\n')` are both empty). */
  lemma {:induction false} SplitJoin(lines: seq<string>)
    requires |lines| > 0
    requires forall i :: 0 <= i < |lines| ==> '\n' !in lines[i]
    ensures SplitLines(JoinLines(lines)) == lines
  {
    if |lines| == 1 {
      SplitNoNewline(lines[0]);
    } else {
      SplitAtNewline(lines[0], JoinLines(lines[1..]));
      SplitJoin(lines[1..]);
    }
  }
}
