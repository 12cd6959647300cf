/**
 * Character classes and the few JavaScript string operations the core relies on:
 * `toUpperCase` / `toLowerCase` (on ASCII letters), `trim`, `includes` and
 * `replace` with a string pattern (which replaces the FIRST occurrence only).
 */
module Text {
  import opened Wrappers

  predicate IsUpper(c: char) { 'A' <= c <= 'Z' }
  predicate IsLower(c: char) { 'a' <= c <= 'z' }
  predicate IsDigit(c: char) { '0' <= c <= '9' }

  /**
   * The characters `String.prototype.trim` removes and `parseInt` skips: the ECMAScript
   * WhiteSpace (tab, vertical tab, form feed, U+FEFF and every space separator of category
   * Zs) and LineTerminator (line feed, carriage return, U+2028, U+2029) code points.
   */
  predicate IsWhitespace(c: char) {
    c == '\t' || c == '\n' || c == '\U{000B}' || c == '\U{000C}' || c == '\r'
    || c == '\U{FEFF}' || c == '\U{2028}' || c == '\U{2029}'
    || IsSpaceSeparator(c)
  }

  /** The Unicode space separators (general category Zs). */
  predicate IsSpaceSeparator(c: char) {
    c == ' ' || c == '\U{00A0}' || c == '\U{1680}' || '\U{2000}' <= c <= '\U{200A}'
    || c == '\U{202F}' || c == '\U{205F}' || c == '\U{3000}'
  }

  function UpperChar(c: char): (r: char)
    ensures IsLower(c) ==> IsUpper(r)
    ensures !IsLower(c) ==> r == c
  {
    if IsLower(c) then (c as int - 32) as char else c
  }

  function LowerChar(c: char): (r: char)
    ensures IsUpper(c) ==> IsLower(r)
    ensures !IsUpper(c) ==> r == c
  {
    if IsUpper(c) then (c as int + 32) as char else c
  }

  /** `s.toUpperCase()`, restricted to ASCII letters. */
  function ToUpper(s: string): (r: string)
    ensures |r| == |s|
    ensures forall i :: 0 <= i < |s| ==> r[i] == UpperChar(s[i])
  {
    seq(|s|, i requires 0 <= i < |s| => UpperChar(s[i]))
  }

  /** `s.toLowerCase()`, restricted to ASCII letters. */
  function ToLower(s: string): (r: string)
    ensures |r| == |s|
    ensures forall i :: 0 <= i < |s| ==> r[i] == LowerChar(s[i])
  {
    seq(|s|, i requires 0 <= i < |s| => LowerChar(s[i]))
  }

  predicate AllWhitespace(s: string) {
    forall i :: 0 <= i < |s| ==> IsWhitespace(s[i])
  }

  /**
   * `s.trim()`: the longest infix without leading or trailing whitespace, found by
   * dropping one whitespace character at a time from either end.
   */
  function Trim(s: string): (r: string)
    ensures |r| <= |s|
    ensures r == [] || (!IsWhitespace(r[0]) && !IsWhitespace(r[|r| - 1]))
    ensures r == [] <==> AllWhitespace(s)
  {
    if |s| > 0 && IsWhitespace(s[0]) then Trim(s[1..])
    else if |s| > 0 && IsWhitespace(s[|s| - 1]) then Trim(s[..|s| - 1])
    else s
  }

  /** `r` is `s[i..j]` and everything outside that range is whitespace. */
  predicate StrippedInfix(s: string, r: string, i: int, j: int) {
    0 <= i <= j <= |s| && r == s[i..j] && AllWhitespace(s[..i]) && AllWhitespace(s[j..])
  }

  /** What `trim` drops is whitespace at either end and nothing else: the result is an infix. */
  lemma {:induction false} TrimIsInfix(s: string)
    ensures exists i, j :: StrippedInfix(s, Trim(s), i, j)
    decreases |s|
  {
    if |s| > 0 && IsWhitespace(s[0]) {
      var t := s[1..];
      TrimIsInfix(t);
      var i, j :| StrippedInfix(t, Trim(t), i, j);
      DropFront(s, t, i, j);
    } else if |s| > 0 && IsWhitespace(s[|s| - 1]) {
      var t := s[..|s| - 1];
      TrimIsInfix(t);
      var i, j :| StrippedInfix(t, Trim(t), i, j);
      DropBack(s, t, i, j);
    } else {
      assert StrippedInfix(s, Trim(s), 0, |s|);
    }
  }

  lemma DropFront(s: string, t: string, i: int, j: int)
    requires |s| > 0 && IsWhitespace(s[0]) && t == s[1..] && StrippedInfix(t, Trim(t), i, j)
    ensures StrippedInfix(s, Trim(s), i + 1, j + 1)
  {
    assert Trim(s) == s[i + 1..j + 1] by { assert t[i..j] == s[i + 1..j + 1]; }
    assert t[j..] == s[j + 1..];
    var front := s[..i + 1];
    forall k | 0 < k < |front| ensures IsWhitespace(front[k]) {
      assert front[k] == t[..i][k - 1];
    }
  }

  lemma DropBack(s: string, t: string, i: int, j: int)
    requires |s| > 0 && !IsWhitespace(s[0]) && IsWhitespace(s[|s| - 1]) && t == s[..|s| - 1]
    requires StrippedInfix(t, Trim(t), i, j)
    ensures StrippedInfix(s, Trim(s), i, j)
  {
    assert Trim(s) == s[i..j] by { assert t[i..j] == s[i..j]; }
    assert t[..i] == s[..i];
    var back := s[j..];
    forall k | 0 <= k < |back| - 1 ensures IsWhitespace(back[k]) {
      assert back[k] == t[j..][k];
    }
  }

  /** Space separators beyond ASCII, such as the ideographic space and the em space, are trimmed too. */
  lemma TrimStripsUnicodeSpaces()
    ensures Trim("\U{3000}A1\U{2003}") == "A1"
  {
    var s := "\U{3000}A1\U{2003}";
    assert IsWhitespace(s[0]) && s[1..] == "A1\U{2003}";
    var t := "A1\U{2003}";
    assert !IsWhitespace(t[0]) && IsWhitespace(t[2]) && t[..2] == "A1";
    assert !IsWhitespace('A') && !IsWhitespace('1');
  }

  /** JavaScript truthiness of a string: only "" is falsy. */
  predicate Truthy(s: string) { s != "" }

  /** `pat` occurs in `s` at position `i`. */
  predicate OccursAt(s: string, pat: string, i: nat) {
    i + |pat| <= |s| && s[i..i + |pat|] == pat
  }

  /** `s.includes(pat)`. */
  predicate Contains(s: string, pat: string) {
    exists i: nat | i <= |s| :: OccursAt(s, pat, i)
  }

  /** `s.indexOf(pat)` from position `from`, as an option (the first occurrence at or after `from`). */
  function FirstOccurrence(s: string, pat: string, from: nat): (r: Option<nat>)
    requires from <= |s|
    ensures r.Some? ==> from <= r.value && OccursAt(s, pat, r.value)
    ensures r.Some? ==> forall j: nat :: from <= j < r.value ==> !OccursAt(s, pat, j)
    ensures r.None? ==> forall j: nat :: from <= j ==> !OccursAt(s, pat, j)
    decreases |s| - from
  {
    if OccursAt(s, pat, from) then Some(from)
    else if from == |s| then None
    else FirstOccurrence(s, pat, from + 1)
  }

  lemma {:induction false} FirstOccurrenceFindsContains(s: string, pat: string)
    ensures FirstOccurrence(s, pat, 0).Some? <==> Contains(s, pat)
  {
    if Contains(s, pat) {
      var i: nat :| OccursAt(s, pat, i);
      assert FirstOccurrence(s, pat, 0).Some?;
    }
  }

  /**
   * `s.replace(pat, rep)` with a string pattern: the first occurrence of `pat`
   * is replaced by `rep`; without an occurrence `s` is returned unchanged.
   */
  function ReplaceFirst(s: string, pat: string, rep: string): (r: string)
    ensures !Contains(s, pat) ==> r == s
    ensures Contains(s, pat) ==>
      exists i: nat | i <= |s| :: OccursAt(s, pat, i)
        && (forall j: nat :: j < i ==> !OccursAt(s, pat, j))
        && r == s[..i] + rep + s[i + |pat|..]
  {
    FirstOccurrenceFindsContains(s, pat);
    match FirstOccurrence(s, pat, 0)
    case None => s
    case Some(i) => s[..i] + rep + s[i + |pat|..]
  }

  /** `s.split(sep)` with a one-character separator: the pieces between separators, in order. */
  function Split(s: string, sep: char): (parts: seq<string>)
    ensures |parts| >= 1
    ensures forall i :: 0 <= i < |parts| ==> sep !in parts[i]
  {
    if s == [] then [""]
    else
      var rest := Split(s[1..], sep);
      if s[0] == sep then [""] + rest
      else [[s[0]] + rest[0]] + rest[1..]
  }

  /** `parts.join(sep)`. */
  function Join(parts: seq<string>, sep: char): string
    requires |parts| >= 1
  {
    if |parts| == 1 then parts[0] else parts[0] + [sep] + Join(parts[1..], sep)
  }

  /** Joining the pieces of a split gives back the string. */
  lemma {:induction false} JoinSplit(s: string, sep: char)
    ensures Join(Split(s, sep), sep) == s
  {
    if s != [] {
      var rest := Split(s[1..], sep);
      JoinSplit(s[1..], sep);
      if s[0] == sep {
        assert Split(s, sep)[1..] == rest;
        assert s == [sep] + s[1..];
      } else {
        var parts := Split(s, sep);
        assert parts[1..] == rest[1..];
        if |rest| > 1 {
          assert Join(rest, sep) == rest[0] + [sep] + Join(rest[1..], sep);
        }
        assert s == [s[0]] + s[1..];
      }
    }
  }

  /** A string without the separator is its own single piece. */
  lemma {:induction false} SplitWithoutSeparator(s: string, sep: char)
    requires sep !in s
    ensures Split(s, sep) == [s]
  {
    if s != [] {
      assert sep !in s[1..] by {
        assert forall c :: c in s[1..] ==> c in s;
      }
      SplitWithoutSeparator(s[1..], sep);
      assert s == [s[0]] + s[1..];
    }
  }
}
