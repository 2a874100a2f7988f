/** Character-level helpers shared by the scorers: ASCII case folding, substring
    search, `\b`-style word matching, Python's `str.split()` word count and the
    response excerpts kept in the evidence ledger. */
module Text {
  import opened Wrappers

  function LowerChar(c: char): char {
    if 'A' <= c <= 'Z' then (c as int + 32) as char else c
  }

  /** Python's `str.lower()`, restricted to ASCII letters. */
  function Lower(s: string): (r: string)
    ensures |r| == |s|
    ensures forall i :: 0 <= i < |s| ==> r[i] == LowerChar(s[i])
  {
    seq(|s|, i requires 0 <= i < |s| => LowerChar(s[i]))
  }

  predicate OccursAt(s: string, p: string, i: int) {
    0 <= i && i + |p| <= |s| && s[i..i + |p|] == p
  }

  /** Python's `p in s`. */
  predicate Contains(s: string, p: string) {
    exists i | 0 <= i <= |s| - |p| :: OccursAt(s, p, i)
  }

  /** `p.lower() in s.lower()`, and equally `re.search(p, s, re.IGNORECASE)`
      for a pattern without metacharacters. */
  predicate ContainsCI(s: string, p: string) {
    Contains(Lower(s), Lower(p))
  }

  /** `any(phrase.lower() in s.lower() for phrase in phrases)`. */
  predicate AnyPhraseCI(s: string, phrases: seq<string>) {
    exists k | 0 <= k < |phrases| :: ContainsCI(s, phrases[k])
  }

  /** If `s` lacks one of the characters of `p`, `p` does not occur in `s`. */
  lemma MissingCharExcludes(s: string, p: string, k: int)
    requires 0 <= k < |p|
    requires forall i :: 0 <= i < |s| ==> s[i] != p[k]
    ensures !Contains(s, p)
  {
    forall i | 0 <= i <= |s| - |p|
      ensures !OccursAt(s, p, i)
    {
      assert s[i..i + |p|][k] != p[k];
    }
  }

  /** First index at or after `i` where `p` occurs in `s`, or -1. */
  function FindFrom(s: string, p: string, i: nat): (r: int)
    requires i <= |s|
    ensures r == -1 || (i <= r && r + |p| <= |s|)
    decreases |s| - i
  {
    if OccursAt(s, p, i) then i
    else if i == |s| then -1
    else FindFrom(s, p, i + 1)
  }

  /** The scan stops at the first occurrence at or after `i`, and gives -1
      exactly when there is none. */
  lemma {:induction false} FindFromFirst(s: string, p: string, i: nat)
    requires i <= |s|
    ensures FindFrom(s, p, i) >= 0 ==> OccursAt(s, p, FindFrom(s, p, i))
    ensures forall j :: i <= j < FindFrom(s, p, i) ==> !OccursAt(s, p, j)
    ensures FindFrom(s, p, i) == -1 ==> forall j :: i <= j <= |s| - |p| ==> !OccursAt(s, p, j)
    decreases |s| - i
  {
    if !OccursAt(s, p, i) && i < |s| {
      FindFromFirst(s, p, i + 1);
    }
  }

  /** `s.lower().find(p.lower())`: the first case-insensitive occurrence, or -1. */
  function FindCI(s: string, p: string): (r: int)
    ensures -1 <= r && (r >= 0 ==> r + |p| <= |s|)
  {
    FindFrom(Lower(s), Lower(p), 0)
  }

  /** The search finds an occurrence exactly when the text contains the
      pattern, ignoring case, and finds the first one. */
  lemma FindCIFirst(s: string, p: string)
    ensures FindCI(s, p) >= 0 <==> Contains(Lower(s), Lower(p))
    ensures FindCI(s, p) >= 0 ==> OccursAt(Lower(s), Lower(p), FindCI(s, p))
    ensures forall j :: 0 <= j < FindCI(s, p) ==> !OccursAt(Lower(s), Lower(p), j)
  {
    FindFromFirst(Lower(s), Lower(p), 0);
  }

  /** A character that `\w` matches (ASCII letters, digits and underscore). */
  predicate IsWordChar(c: char) {
    ('a' <= c <= 'z') || ('A' <= c <= 'Z') || ('0' <= c <= '9') || c == '_'
  }

  /** Position `i` of `s` is a `\b` boundary: exactly one of its neighbours is a word character. */
  predicate BoundaryAt(s: string, i: int)
    requires 0 <= i <= |s|
  {
    (i > 0 && IsWordChar(s[i - 1])) != (i < |s| && IsWordChar(s[i]))
  }

  /** `w` occurs at position `i` of `s`, ignoring case, between two `\b` boundaries. */
  predicate WordAt(s: string, w: string, i: int) {
    0 <= i && i + |w| <= |s| && OccursAt(Lower(s), Lower(w), i) && BoundaryAt(s, i) && BoundaryAt(s, i + |w|)
  }

  /** The regular-expression scan from position `i` on. */
  predicate MentionsWordFrom(s: string, w: string, i: nat)
    decreases |s| - i
  {
    if i + |w| > |s| then false else WordAt(s, w, i) || MentionsWordFrom(s, w, i + 1)
  }

  /** `re.search(r"\b" + re.escape(w) + r"\b", s, re.IGNORECASE)` succeeds. */
  predicate MentionsWord(s: string, w: string) {
    MentionsWordFrom(s, w, 0)
  }

  /** The scan succeeds exactly when some position holds the word. */
  lemma {:induction false} MentionsWordFromIff(s: string, w: string, i: nat)
    ensures MentionsWordFrom(s, w, i) <==> exists j :: i <= j && WordAt(s, w, j)
    decreases |s| - i
  {
    if i + |w| <= |s| {
      MentionsWordFromIff(s, w, i + 1);
      if WordAt(s, w, i) {
        assert exists j :: i <= j && WordAt(s, w, j);
      }
      if exists j :: i <= j && WordAt(s, w, j) {
        var j :| i <= j && WordAt(s, w, j);
        assert j == i || (i + 1 <= j && WordAt(s, w, j));
      }
    }
  }

  lemma MentionsWordIff(s: string, w: string)
    ensures MentionsWord(s, w) <==> exists i :: 0 <= i && WordAt(s, w, i)
  {
    MentionsWordFromIff(s, w, 0);
  }

  /** `s[:n] + "..." if len(s) > n else s`. */
  function Excerpt(s: string, n: nat): (r: string)
    ensures |s| <= n ==> r == s
    ensures |s| > n ==> r == s[..n] + "..."
  {
    if |s| > n then s[..n] + "..." else s
  }

  predicate EndsWith(s: string, c: char) {
    |s| > 0 && s[|s| - 1] == c
  }

  /** Whitespace as Python's `str.split()` sees it, restricted to ASCII. */
  predicate IsSpace(c: char) {
    c == ' ' || ('\t' <= c <= '\r') || ('\U{1c}' <= c <= '\U{1f}')
  }

  /** Position `i` starts a word: a non-space character after a space or at the start. */
  predicate WordStartAt(s: string, i: int)
    requires 0 <= i < |s|
  {
    !IsSpace(s[i]) && (i == 0 || IsSpace(s[i - 1]))
  }

  /** `len(s.split())`: the number of maximal runs of non-space characters. */
  function WordCount(s: string): (n: nat)
    ensures n <= |s|
  {
    if s == [] then 0
    else WordCount(s[..|s| - 1]) + (if WordStartAt(s, |s| - 1) then 1 else 0)
  }

  /** The positions where a word starts. */
  ghost function WordStarts(s: string): set<int> {
    set i | 0 <= i < |s| && WordStartAt(s, i)
  }

  /** `WordCount` counts exactly the positions where a word starts. */
  lemma {:induction false} WordCountStarts(s: string)
    ensures WordCount(s) == |WordStarts(s)|
  {
    if s != [] {
      var init := s[..|s| - 1];
      WordCountStarts(init);
      var last: set<int> := if WordStartAt(s, |s| - 1) then {|s| - 1} else {};
      assert WordStarts(s) == WordStarts(init) + last by {
        forall i | 0 <= i < |init|
          ensures WordStartAt(s, i) == WordStartAt(init, i)
        {
        }
      }
      assert WordStarts(init) !! last;
    }
  }

  /** Python's `s.split(sep)` for a one-character separator: the maximal runs
      between separators, empty ones included, so never an empty list. */
  function Split(s: string, sep: char): (parts: seq<string>)
    ensures |parts| >= 1
  {
    if s == [] then [""]
    else
      var parts := Split(s[..|s| - 1], sep);
      var last := s[|s| - 1];
      if last == sep then parts + [""]
      else parts[..|parts| - 1] + [parts[|parts| - 1] + [last]]
  }

  /** `sep.join(parts)`. */
  function Join(parts: seq<string>, sep: char): string
    requires |parts| >= 1
  {
    if |parts| == 1 then parts[0]
    else Join(parts[..|parts| - 1], sep) + [sep] + parts[|parts| - 1]
  }

  /** Extending the last part by one character extends the joined string by it. */
  lemma JoinExtendLast(parts: seq<string>, sep: char, c: char)
    requires |parts| >= 1
    ensures Join(parts[..|parts| - 1] + [parts[|parts| - 1] + [c]], sep) == Join(parts, sep) + [c]
  {
    var n := |parts|;
    var parts' := parts[..n - 1] + [parts[n - 1] + [c]];
    if n > 1 {
      assert parts'[..n - 1] == parts[..n - 1];
    }
  }

  /** Splitting then joining gives back the string. */
  lemma {:induction false} SplitJoin(s: string, sep: char)
    ensures Join(Split(s, sep), sep) == s
  {
    if s != [] {
      var init, last := s[..|s| - 1], s[|s| - 1];
      SplitJoin(init, sep);
      var parts := Split(init, sep);
      assert s == init + [last];
      if last == sep {
        assert Split(s, sep) == parts + [""];
        assert (parts + [""])[..|parts|] == parts;
      } else {
        assert Split(s, sep) == parts[..|parts| - 1] + [parts[|parts| - 1] + [last]];
        JoinExtendLast(parts, sep, last);
      }
    }
  }

  /** No part of a split holds the separator. */
  lemma {:induction false} SplitPartsLackSeparator(s: string, sep: char)
    ensures forall k :: 0 <= k < |Split(s, sep)| ==> sep !in Split(s, sep)[k]
  {
    if s != [] {
      SplitPartsLackSeparator(s[..|s| - 1], sep);
    }
  }

  predicate IsDigit(c: char) {
    '0' <= c <= '9'
  }

  /** The characters Python's `int()` accepts between the sign and the end:
      ASCII digits, with single underscores between digits. */
  predicate DigitRun(t: string) {
    && |t| > 0 && IsDigit(t[0]) && IsDigit(t[|t| - 1])
    && (forall i :: 0 <= i < |t| ==> IsDigit(t[i]) || t[i] == '_')
    && (forall i :: 0 <= i < |t| - 1 && t[i] == '_' ==> t[i + 1] != '_')
  }

  function DigitValue(c: char): nat
    requires IsDigit(c)
  {
    c as int - '0' as int
  }

  /** The value of the digits of `t`, underscores skipped. */
  function DigitsValue(t: string): nat {
    if t == [] then 0
    else if IsDigit(t[|t| - 1]) then 10 * DigitsValue(t[..|t| - 1]) + DigitValue(t[|t| - 1])
    else DigitsValue(t[..|t| - 1])
  }

  function TrimStart(s: string): (r: string)
    ensures |r| <= |s|
    ensures r == [] || !IsSpace(r[0])
  {
    if s != [] && IsSpace(s[0]) then TrimStart(s[1..]) else s
  }

  /** `TrimStart` keeps a suffix of the text and cuts off only whitespace. */
  lemma {:induction false} TrimStartSuffix(s: string)
    ensures TrimStart(s) == s[|s| - |TrimStart(s)|..]
    ensures forall j :: 0 <= j < |s| - |TrimStart(s)| ==> IsSpace(s[j])
  {
    if s != [] && IsSpace(s[0]) {
      var r := TrimStart(s[1..]);
      TrimStartSuffix(s[1..]);
      assert s[1..][|s| - 1 - |r|..] == s[|s| - |r|..];
      assert forall j :: 1 <= j < |s| - |r| ==> s[j] == s[1..][j - 1];
    }
  }

  function TrimEnd(s: string): (r: string)
    ensures |r| <= |s|
    ensures r == [] || !IsSpace(r[|r| - 1])
  {
    if s != [] && IsSpace(s[|s| - 1]) then TrimEnd(s[..|s| - 1]) else s
  }

  /** `TrimEnd` keeps a prefix of the text and cuts off only whitespace. */
  lemma {:induction false} TrimEndPrefix(s: string)
    ensures TrimEnd(s) == s[..|TrimEnd(s)|]
    ensures forall j :: |TrimEnd(s)| <= j < |s| ==> IsSpace(s[j])
  {
    if s != [] && IsSpace(s[|s| - 1]) {
      var r := TrimEnd(s[..|s| - 1]);
      TrimEndPrefix(s[..|s| - 1]);
      assert s[..|s| - 1][..|r|] == s[..|r|];
      assert forall j :: |r| <= j < |s| - 1 ==> s[j] == s[..|s| - 1][j];
    }
  }

  /** Python's `int(s)` on a string, restricted to ASCII: surrounding
      whitespace, an optional sign, then a run of digits; anything else is the
      ValueError, here None. */
  function ParseInt(s: string): (r: Option<int>)
  {
    var t := TrimEnd(TrimStart(s));
    if |t| > 0 && (t[0] == '+' || t[0] == '-') then
      var magnitude: int := DigitsValue(t[1..]);
      (if DigitRun(t[1..]) then Some(if t[0] == '-' then -magnitude else magnitude) else None)
    else if DigitRun(t) then Some(DigitsValue(t))
    else None
  }

  /** The decimal rendering of a natural number, without leading zeros. */
  function Decimal(n: nat): (r: string)
    ensures |r| > 0
    ensures forall i :: 0 <= i < |r| ==> IsDigit(r[i])
  {
    if n < 10 then [('0' as int + n) as char]
    else Decimal(n / 10) + [('0' as int + n % 10) as char]
  }

  lemma {:induction false} DecimalValue(n: nat)
    ensures DigitsValue(Decimal(n)) == n
  {
    if n >= 10 {
      DecimalValue(n / 10);
      assert Decimal(n)[..|Decimal(n)| - 1] == Decimal(n / 10);
    }
  }

  /** `int(str(n)) == n` for every natural number. */
  lemma ParseDecimal(n: nat)
    ensures ParseInt(Decimal(n)) == Some(n)
  {
    var d := Decimal(n);
    assert TrimStart(d) == d;
    assert TrimEnd(d) == d;
    DecimalValue(n);
  }
}
