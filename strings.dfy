/**
 * The JavaScript string operations the core relies on (`includes`, `indexOf`,
 * `split`, `startsWith`, `endsWith`, `substring`, `trim`, `toLowerCase` against
 * ASCII literals), stated over `seq<char>`.
 */
module JsStrings {
  import opened Wrappers

  /** `pat` occurs in `s` starting at position `i`. */
  predicate OccursAt(s: string, pat: string, i: nat) {
    i + |pat| <= |s| && s[i..i + |pat|] == pat
  }

  lemma {:induction false} OccursAtShift(s: string, pat: string, j: nat)
    requires |s| > 0
    ensures OccursAt(s, pat, j + 1) <==> OccursAt(s[1..], pat, j)
  {
    if j + 1 + |pat| <= |s| {
      assert s[j + 1..j + 1 + |pat|] == s[1..][j..j + |pat|];
    }
  }

  /** No occurrence in `s[1..]` before `bound` and none at 0 means none in `s` before `bound + 1`. */
  lemma {:induction false} NoOccurrenceShift(s: string, pat: string, bound: nat)
    requires |s| > 0 && !OccursAt(s, pat, 0)
    requires forall j: nat :: j < bound ==> !OccursAt(s[1..], pat, j)
    ensures forall j: nat :: j < bound + 1 ==> !OccursAt(s, pat, j)
  {
    forall j: nat | j < bound + 1
      ensures !OccursAt(s, pat, j)
    {
      if j > 0 {
        OccursAtShift(s, pat, j - 1);
      }
    }
  }

  /** `s.indexOf(pat)`: the first position where `pat` occurs, if any. */
  function IndexOf(s: string, pat: string): (r: Option<nat>)
    ensures r.Some? ==> OccursAt(s, pat, r.value)
    ensures r.Some? ==> forall j: nat :: j < r.value ==> !OccursAt(s, pat, j)
    ensures r.None? ==> forall j: nat :: !OccursAt(s, pat, j)
    decreases |s|
  {
    if |s| < |pat| then None
    else if s[..|pat|] == pat then Some(0)
    else
      var rest := IndexOf(s[1..], pat);
      match rest
      case None =>
        NoOccurrenceShift(s, pat, |s|);
        None
      case Some(k) =>
        NoOccurrenceShift(s, pat, k);
        OccursAtShift(s, pat, k);
        Some(k + 1)
  }

  /** `s.includes(pat)`. */
  predicate Includes(s: string, pat: string) {
    IndexOf(s, pat).Some?
  }

  /** `s.split(sep)` for a non-empty separator: the pieces between successive occurrences. */
  function Split(s: string, sep: string): (parts: seq<string>)
    requires sep != ""
    ensures |parts| >= 1
    ensures |parts| == 1 <==> !Includes(s, sep)
    ensures forall k :: 0 <= k < |parts| ==> !Includes(parts[k], sep)
    decreases |s|
  {
    match IndexOf(s, sep)
    case None => [s]
    case Some(i) =>
      var head := s[..i];
      forall j: nat ensures !OccursAt(head, sep, j) {
        if OccursAt(head, sep, j) {
          assert s[j..j + |sep|] == head[j..j + |sep|];
          assert OccursAt(s, sep, j);
        }
      }
      [head] + Split(s[i + |sep|..], sep)
  }

  /** The first piece of a split runs up to the first occurrence of the separator, or is everything. */
  lemma SplitHead(s: string, sep: string)
    requires sep != ""
    ensures IndexOf(s, sep).None? ==> Split(s, sep)[0] == s
    ensures IndexOf(s, sep).Some? ==> Split(s, sep)[0] == s[..IndexOf(s, sep).value]
  {
  }

  /**
   * `s.split(sep)[1]` when `sep` occurs: the text after the first occurrence,
   * up to the next occurrence or to the end.
   */
  lemma SecondPiece(s: string, sep: string)
    requires sep != "" && Includes(s, sep)
    ensures var rest := s[IndexOf(s, sep).value + |sep|..];
      Split(s, sep)[1] == (if Includes(rest, sep) then rest[..IndexOf(rest, sep).value] else rest)
  {
    var i := IndexOf(s, sep).value;
    SplitAtFirst(s, sep, i);
    SplitHead(s[i + |sep|..], sep);
  }

  /** `parts.join(sep)`. */
  function Join(parts: seq<string>, sep: string): string {
    if |parts| == 0 then ""
    else if |parts| == 1 then parts[0]
    else parts[0] + sep + Join(parts[1..], sep)
  }

  lemma {:induction false} JoinCons(head: string, rest: seq<string>, sep: string)
    requires |rest| >= 1
    ensures Join([head] + rest, sep) == head + sep + Join(rest, sep)
  {
    assert ([head] + rest)[1..] == rest;
  }

  /** Splitting at the first occurrence `i` peels off `s[..i]`. */
  lemma {:induction false} SplitAtFirst(s: string, sep: string, i: nat)
    requires sep != "" && IndexOf(s, sep) == Some(i)
    ensures Split(s, sep) == [s[..i]] + Split(s[i + |sep|..], sep)
    ensures s == s[..i] + sep + s[i + |sep|..]
  {
    assert OccursAt(s, sep, i);
    assert s[i..i + |sep|] == sep;
    assert s == s[..i] + s[i..i + |sep|] + s[i + |sep|..];
  }

  /** Splitting and joining again with the same separator gives back the string. */
  lemma {:induction false} JoinSplit(s: string, sep: string)
    requires sep != ""
    ensures Join(Split(s, sep), sep) == s
    decreases |s|
  {
    var idx := IndexOf(s, sep);
    if idx.Some? {
      var i := idx.value;
      var tail := s[i + |sep|..];
      SplitAtFirst(s, sep, i);
      JoinSplit(tail, sep);
      JoinCons(s[..i], Split(tail, sep), sep);
    }
  }

  /** `s.startsWith(p)`. */
  predicate StartsWith(s: string, p: string) {
    |p| <= |s| && s[..|p|] == p
  }

  /** `s.endsWith(p)`. */
  predicate EndsWith(s: string, p: string) {
    |p| <= |s| && s[|s| - |p|..] == p
  }

  function Clamp(x: int, n: nat): (r: nat)
    ensures r <= n
    ensures 0 <= x <= n ==> r == x
  {
    if x < 0 then 0 else if x > n then n else x
  }

  /**
   * `s.substring(start, end)`: both bounds are clamped to `0..|s|` and
   * swapped when the first exceeds the second.
   */
  function Substring(s: string, start: int, end: int): (r: string)
    ensures 0 <= start <= end <= |s| ==> r == s[start..end]
    ensures var a, b := Clamp(start, |s|), Clamp(end, |s|);
      r == (if a <= b then s[a..b] else s[b..a])
    ensures |r| <= |s|
  {
    var a, b := Clamp(start, |s|), Clamp(end, |s|);
    if a <= b then s[a..b] else s[b..a]
  }

  /** `s.substring(start)`. */
  function SubstringFrom(s: string, start: int): (r: string)
    ensures 0 <= start <= |s| ==> r == s[start..]
    ensures start <= 0 ==> r == s
  {
    Substring(s, start, |s|)
  }

  /**
   * `s.substring(0, head) + "..." + s.substring(s.length - tail)`: the
   * abbreviation used for addresses and card IDs.
   */
  function Abbreviate(s: string, head: nat, tail: nat): (r: string)
    ensures |s| >= head && |s| >= tail ==> r == s[..head] + "..." + s[|s| - tail..]
    ensures |s| < head && |s| < tail ==> r == s + "..." + s
  {
    Substring(s, 0, head) + "..." + SubstringFrom(s, |s| - tail)
  }

  /** The characters `String.prototype.trim` removes: WhiteSpace and LineTerminator of ECMA-262. */
  predicate IsWhitespace(c: char) {
    c == '\t' || c == '\n' || c == '\U{000B}' || c == '\U{000C}' || c == '\r' || c == ' '
    || c == '\U{00A0}' || c == '\U{1680}' || ('\U{2000}' <= c <= '\U{200A}')
    || c == '\U{2028}' || c == '\U{2029}' || c == '\U{202F}' || c == '\U{205F}'
    || c == '\U{3000}' || c == '\U{FEFF}'
  }

  predicate AllWhitespace(s: string) {
    forall k :: 0 <= k < |s| ==> IsWhitespace(s[k])
  }

  /** `s.trimStart()`. */
  function TrimStart(s: string): string {
    if |s| > 0 && IsWhitespace(s[0]) then TrimStart(s[1..]) else s
  }

  /** `trimStart` drops the leading whitespace and nothing else. */
  lemma {:induction false} TrimStartSpec(s: string)
    ensures |TrimStart(s)| <= |s| && TrimStart(s) == s[|s| - |TrimStart(s)|..]
    ensures AllWhitespace(s[..|s| - |TrimStart(s)|])
    ensures TrimStart(s) == "" || !IsWhitespace(TrimStart(s)[0])
  {
    if |s| > 0 && IsWhitespace(s[0]) {
      var r := TrimStart(s[1..]);
      TrimStartSpec(s[1..]);
      assert s[..|s| - |r|] == [s[0]] + s[1..][..|s[1..]| - |r|];
    }
  }

  /** `s.trimEnd()`. */
  function TrimEnd(s: string): string {
    if |s| > 0 && IsWhitespace(s[|s| - 1]) then TrimEnd(s[..|s| - 1]) else s
  }

  /** `trimEnd` drops the trailing whitespace and nothing else. */
  lemma {:induction false} TrimEndSpec(s: string)
    ensures |TrimEnd(s)| <= |s| && TrimEnd(s) == s[..|TrimEnd(s)|]
    ensures AllWhitespace(s[|TrimEnd(s)|..])
    ensures TrimEnd(s) == "" || !IsWhitespace(TrimEnd(s)[|TrimEnd(s)| - 1])
  {
    if |s| > 0 && IsWhitespace(s[|s| - 1]) {
      var r := TrimEnd(s[..|s| - 1]);
      TrimEndSpec(s[..|s| - 1]);
      assert s[|r|..] == s[..|s| - 1][|r|..] + [s[|s| - 1]];
    }
  }

  /** `s.trim()`. */
  function Trim(s: string): (r: string) {
    TrimEnd(TrimStart(s))
  }

  /** `r` sits at position `i` of `s` with only whitespace before and after it. */
  predicate WhitespaceAround(s: string, r: string, i: nat) {
    i + |r| <= |s| && r == s[i..i + |r|] && AllWhitespace(s[..i]) && AllWhitespace(s[i + |r|..])
  }

  /** A trimmed string has no whitespace at either end. */
  lemma TrimEdges(s: string)
    ensures Trim(s) == "" || (!IsWhitespace(Trim(s)[0]) && !IsWhitespace(Trim(s)[|Trim(s)| - 1]))
  {
    var t := TrimStart(s);
    var r := TrimEnd(t);
    TrimStartSpec(s);
    TrimEndSpec(t);
    if r != "" {
      assert r[0] == t[0];
    }
  }

  /** A trimmed string is a slice of the input with only whitespace around it. */
  lemma TrimSpec(s: string)
    ensures exists i :: WhitespaceAround(s, Trim(s), i)
  {
    var t := TrimStart(s);
    var r := TrimEnd(t);
    TrimStartSpec(s);
    TrimEndSpec(t);
    var i: nat := |s| - |t|;
    assert r == Trim(s);
    assert s[i..i + |r|] == t[..|r|];
    assert s[i + |r|..] == t[|r|..];
    assert WhitespaceAround(s, r, i);
  }

  /** Trimming a string with no whitespace at its ends changes nothing. */
  lemma {:induction false} TrimNoop(s: string)
    requires s == "" || (!IsWhitespace(s[0]) && !IsWhitespace(s[|s| - 1]))
    ensures Trim(s) == s
  {
  }

  /** `c.toLowerCase()` for ASCII letters; every other character is kept. */
  function ToLowerAscii(c: char): char {
    if 'A' <= c <= 'Z' then (c as int + 32) as char else c
  }

  /**
   * Whether `s.toLowerCase() === lit` for an all-lower-case ASCII literal. No
   * non-ASCII character lower-cases to a single ASCII letter other than the
   * Kelvin sign (to 'k'), so for the literals compared here ASCII folding is exact.
   */
  predicate EqualsIgnoringAsciiCase(s: string, lit: string) {
    |s| == |lit| && forall k :: 0 <= k < |s| ==> ToLowerAscii(s[k]) == lit[k]
  }
}
