/**
 * The JavaScript string built-ins the coaching core relies on, over `seq<char>`:
 * `trim`, `startsWith`, `includes`, `split` and `join` on one separator,
 * literal global replacement, and `toLowerCase` restricted to ASCII letters.
 */
module Strings {

  /** The WhiteSpace and LineTerminator code points that `String.prototype.trim` removes. */
  predicate IsWhitespace(c: char) {
    || c == '\t' || c == '\n' || c == '\U{000B}' || c == '\U{000C}' || c == '\r' || c == ' '
    || c == '\U{00A0}' || c == '\U{1680}' || ('\U{2000}' <= c <= '\U{200A}')
    || c == '\U{2028}' || c == '\U{2029}' || c == '\U{202F}' || c == '\U{205F}'
    || c == '\U{3000}' || c == '\U{FEFF}'
  }

  predicate AllWhitespace(s: string) {
    forall k :: 0 <= k < |s| ==> IsWhitespace(s[k])
  }

  /** The number of whitespace characters `s` starts with. */
  function LeadingWhitespace(s: string): (n: nat)
    ensures n <= |s|
  {
    if |s| > 0 && IsWhitespace(s[0]) then 1 + LeadingWhitespace(s[1..]) else 0
  }

  /** The leading run is whitespace and is as long as it can be. */
  lemma {:induction false} LeadingWhitespaceSpec(s: string)
    ensures AllWhitespace(s[..LeadingWhitespace(s)])
    ensures LeadingWhitespace(s) < |s| ==> !IsWhitespace(s[LeadingWhitespace(s)])
  {
    if |s| > 0 && IsWhitespace(s[0]) {
      LeadingWhitespaceSpec(s[1..]);
      var n := LeadingWhitespace(s);
      assert s[..n] == [s[0]] + s[1..][..n - 1];
      if n < |s| {
        assert s[n] == s[1..][n - 1];
      }
    }
  }

  /** The number of whitespace characters `s` ends with. */
  function TrailingWhitespace(s: string): (n: nat)
    ensures n <= |s|
  {
    if |s| > 0 && IsWhitespace(s[|s| - 1]) then 1 + TrailingWhitespace(s[..|s| - 1]) else 0
  }

  /** The trailing run is whitespace and is as long as it can be. */
  lemma {:induction false} TrailingWhitespaceSpec(s: string)
    ensures AllWhitespace(s[|s| - TrailingWhitespace(s)..])
    ensures TrailingWhitespace(s) < |s| ==> !IsWhitespace(s[|s| - 1 - TrailingWhitespace(s)])
  {
    if |s| > 0 && IsWhitespace(s[|s| - 1]) {
      var p := s[..|s| - 1];
      TrailingWhitespaceSpec(p);
      var n := TrailingWhitespace(s);
      assert s[|s| - n..] == p[|p| - (n - 1)..] + [s[|s| - 1]];
      if n < |s| {
        assert s[|s| - 1 - n] == p[|p| - 1 - (n - 1)];
      }
    }
  }

  /** `s.trimStart()`. */
  function TrimStart(s: string): string {
    s[LeadingWhitespace(s)..]
  }

  /** `s.trimEnd()`. */
  function TrimEnd(s: string): string {
    s[..|s| - TrailingWhitespace(s)]
  }

  /** `s.trim()`: `s` without its whitespace prefix and suffix. */
  function Trim(s: string): (r: string)
    ensures |r| <= |s|
  {
    TrimEnd(TrimStart(s))
  }

  /** `r` is `s[i..i + |r|]` and everything of `s` outside that slice is whitespace. */
  predicate SliceBetweenWhitespace(s: string, r: string, i: int) {
    0 <= i <= |s| - |r| && s[i..i + |r|] == r && AllWhitespace(s[..i]) && AllWhitespace(s[i + |r|..])
  }

  /**
   * What `trim` keeps: a contiguous slice of the input with only whitespace around it, which
   * neither starts nor ends with whitespace, and which is empty exactly when the input is
   * whitespace only.
   */
  lemma TrimSpec(s: string)
    ensures SliceBetweenWhitespace(s, Trim(s), LeadingWhitespace(s))
    ensures Trim(s) == [] || (!IsWhitespace(Trim(s)[0]) && !IsWhitespace(Trim(s)[|Trim(s)| - 1]))
    ensures Trim(s) == [] <==> AllWhitespace(s)
  {
    TrimSlices(s);
    TrimEnds(s);
    TrimEmpty(s);
  }

  lemma TrimSlices(s: string)
    ensures SliceBetweenWhitespace(s, Trim(s), LeadingWhitespace(s))
  {
    var i := LeadingWhitespace(s);
    var t := s[i..];
    var r := Trim(s);
    LeadingWhitespaceSpec(s);
    TrailingWhitespaceSpec(t);
    SliceOfSuffix(s, i, |r|);
  }

  /** Slicing a suffix `s[i..]` is slicing `s` further along. */
  lemma SliceOfSuffix(s: string, i: nat, j: nat)
    requires i + j <= |s|
    ensures s[i..][..j] == s[i..i + j]
    ensures s[i..][j..] == s[i + j..]
  {
  }

  lemma TrimEnds(s: string)
    ensures Trim(s) == [] || (!IsWhitespace(Trim(s)[0]) && !IsWhitespace(Trim(s)[|Trim(s)| - 1]))
  {
    var t := TrimStart(s);
    LeadingWhitespaceSpec(s);
    TrailingWhitespaceSpec(t);
  }

  lemma TrimEmpty(s: string)
    ensures Trim(s) == [] <==> AllWhitespace(s)
  {
    if AllWhitespace(s) {
      WhitespaceIsLeading(s);
    }
    if Trim(s) == [] {
      EmptyTrimIsWhitespace(s);
    }
  }

  /** A whitespace-only string is all leading whitespace. */
  lemma {:induction false} WhitespaceIsLeading(s: string)
    requires AllWhitespace(s)
    ensures LeadingWhitespace(s) == |s|
  {
    if |s| > 0 {
      assert IsWhitespace(s[0]);
      WhitespaceIsLeading(s[1..]);
    }
  }

  lemma EmptyTrimIsWhitespace(s: string)
    requires Trim(s) == []
    ensures AllWhitespace(s)
  {
    var i := LeadingWhitespace(s);
    var t := s[i..];
    LeadingWhitespaceSpec(s);
    TrailingWhitespaceSpec(t);
    assert t[|t| - TrailingWhitespace(t)..] == t;
    AllWhitespaceAppend(s[..i], t);
    assert s[..i] + t == s;
  }

  lemma AllWhitespaceAppend(a: string, b: string)
    ensures AllWhitespace(a + b) <==> AllWhitespace(a) && AllWhitespace(b)
  {
    assert forall k :: 0 <= k < |a| ==> (a + b)[k] == a[k];
    assert forall k :: 0 <= k < |b| ==> (a + b)[|a| + k] == b[k];
    if AllWhitespace(a) && AllWhitespace(b) {
      forall k | 0 <= k < |a + b| ensures IsWhitespace((a + b)[k]) {
        if k >= |a| {
          assert (a + b)[k] == b[k - |a|];
        }
      }
    }
  }

  /** Trimming twice is trimming once. */
  lemma TrimIdempotent(s: string)
    ensures Trim(Trim(s)) == Trim(s)
  {
    var r := Trim(s);
    TrimEnds(s);
    if r != [] {
      assert LeadingWhitespace(r) == 0;
      assert TrailingWhitespace(r) == 0;
    }
  }

  /** Trimming a text that starts visibly only cuts its end, and leaves visible ends. */
  lemma TrimVisibleStart(s: string)
    requires |s| > 0 && !IsWhitespace(s[0])
    ensures Trim(s) == s[..|s| - TrailingWhitespace(s)]
    ensures |Trim(s)| > 0 && Trim(s)[0] == s[0] && !IsWhitespace(Trim(s)[|Trim(s)| - 1])
  {
    assert LeadingWhitespace(s) == 0;
    assert TrimStart(s) == s;
    TrimSpec(s);
    assert !AllWhitespace(s);
  }

  /** A text that starts visibly and ends with one whitespace character after a visible one loses just that character. */
  lemma TrimDropsFinalBreak(s: string)
    requires |s| >= 2 && !IsWhitespace(s[0]) && IsWhitespace(s[|s| - 1]) && !IsWhitespace(s[|s| - 2])
    ensures Trim(s) == s[..|s| - 1]
  {
    TrailingWhitespaceSpec(s);
    TrimVisibleStart(s);
  }

  /** `s.startsWith(p)`. */
  predicate StartsWith(s: string, p: string) {
    |p| <= |s| && s[..|p|] == p
  }

  predicate OccursAt(s: string, p: string, i: int) {
    0 <= i <= |s| - |p| && s[i..i + |p|] == p
  }

  /** `s.includes(p)`. */
  predicate Contains(s: string, p: string) {
    exists i :: 0 <= i <= |s| - |p| && OccursAt(s, p, i)
  }

  lemma ContainsAt(s: string, p: string, i: int)
    requires OccursAt(s, p, i)
    ensures Contains(s, p)
  {
  }

  /** A character missing after the first position of `a` and from `b` is missing after the first position of `a + b`. */
  lemma AbsentAfterFirst(a: string, b: string, c: char)
    requires |a| > 0 && c !in a[1..] && c !in b
    ensures c !in (a + b)[1..]
  {
    assert (a + b)[1..] == a[1..] + b;
  }

  /** A string in which some character of `p` never occurs cannot contain `p`. */
  lemma NotContainsMissingChar(s: string, p: string, c: char)
    requires c in p && c !in s
    ensures !Contains(s, p)
  {
  }

  /** A prefix is an occurrence. */
  lemma StartsWithContains(s: string, p: string)
    requires StartsWith(s, p)
    ensures Contains(s, p)
  {
    assert OccursAt(s, p, 0);
  }

  /** The middle piece of a concatenation occurs in it, right after the first piece. */
  lemma ContainsMiddle(a: string, b: string, c: string)
    ensures OccursAt(a + b + c, b, |a|) && Contains(a + b + c, b)
  {
    assert (a + b + c)[|a|..|a| + |b|] == b;
    ContainsAt(a + b + c, b, |a|);
  }

  /** When the first character of `p` occurs in `s` only at its start, `p` can occur only there. */
  lemma ContainsOnlyAtFront(s: string, p: string)
    requires |p| > 0 && |s| > 0 && p[0] !in s[1..]
    ensures Contains(s, p) ==> StartsWith(s, p)
  {
    forall i | 1 <= i <= |s| - |p| ensures !OccursAt(s, p, i) {
      assert s[1..][i - 1] == s[i];
      assert s[i..i + |p|][0] == s[i];
    }
  }

  /** Two neighbouring pieces occur together, right after what precedes them. */
  lemma ContainsJoined(a: string, b: string, c: string)
    ensures Contains((a + b) + c, b + c)
  {
    assert ((a + b) + c)[|a|..|a| + |b + c|] == b + c;
    ContainsAt((a + b) + c, b + c, |a|);
  }

  /** An occurrence survives appending more text. */
  lemma ContainsExtend(s: string, t: string, p: string)
    requires Contains(s, p)
    ensures Contains(s + t, p)
  {
    var i :| 0 <= i <= |s| - |p| && OccursAt(s, p, i);
    assert (s + t)[i..i + |p|] == s[i..i + |p|];
    ContainsAt(s + t, p, i);
  }

  /** An occurrence of `p` in `s` either starts `s` or lies in `s[1..]`. */
  lemma ContainsUncons(s: string, p: string)
    requires |s| > 0
    ensures Contains(s, p) <==> StartsWith(s, p) || Contains(s[1..], p)
  {
    if i :| OccursAt(s, p, i) {
      if i > 0 {
        assert OccursAt(s[1..], p, i - 1);
      } else {
        assert s[..|p|] == s[0..0 + |p|];
      }
    }
    if StartsWith(s, p) {
      assert OccursAt(s, p, 0);
    }
    if i :| OccursAt(s[1..], p, i) {
      assert s[1..][i..i + |p|] == s[i + 1..i + 1 + |p|];
      assert OccursAt(s, p, i + 1);
    }
  }

  /** `parts.join(sep)`. */
  function Join(parts: seq<string>, sep: string): string
  {
    if |parts| == 0 then ""
    else if |parts| == 1 then parts[0]
    else parts[0] + sep + Join(parts[1..], sep)
  }

  /** A character found in no part and not in the separator is not in the join. */
  lemma {:induction false} JoinExcludes(parts: seq<string>, sep: string, c: char)
    requires c !in sep
    requires forall k :: 0 <= k < |parts| ==> c !in parts[k]
    ensures c !in Join(parts, sep)
    decreases |parts|
  {
    if |parts| > 1 {
      JoinExcludes(parts[1..], sep, c);
    }
  }

  /** `s.split(d)` for a one-character separator `d`. */
  function Split(s: string, d: char): (r: seq<string>)
    ensures |r| >= 1
    ensures forall k :: 0 <= k < |r| ==> d !in r[k]
  {
    if |s| == 0 then [""]
    else
      var rest := Split(s[1..], d);
      if s[0] == d then [""] + rest
      else [[s[0]] + rest[0]] + rest[1..]
  }

  /** Joining the pieces of a split with the separator gives the string back. */
  lemma {:induction false} JoinSplit(s: string, d: char)
    ensures Join(Split(s, d), [d]) == s
  {
    if |s| > 0 {
      var rest := Split(s[1..], d);
      JoinSplit(s[1..], d);
      if s[0] == d {
        assert Split(s, d) == [""] + rest;
        assert ([""] + rest)[1..] == rest;
      } else {
        var r := [[s[0]] + rest[0]] + rest[1..];
        assert Split(s, d) == r;
        if |rest| == 1 {
          assert r == [[s[0]] + rest[0]];
        } else {
          assert r[1..] == rest[1..];
          assert Join(rest, [d]) == rest[0] + [d] + Join(rest[1..], [d]);
        }
      }
    }
  }

  /** Splitting a join of separator-free pieces gives the pieces back. */
  lemma {:induction false} SplitJoin(parts: seq<string>, d: char)
    requires |parts| >= 1
    requires forall k :: 0 <= k < |parts| ==> d !in parts[k]
    ensures Split(Join(parts, [d]), d) == parts
    decreases |parts|, |parts[0]|
  {
    var p := parts[0];
    if |p| == 0 {
      if |parts| > 1 {
        SplitJoin(parts[1..], d);
        var s := Join(parts, [d]);
        assert s == [d] + Join(parts[1..], [d]);
        assert s[1..] == Join(parts[1..], [d]);
        assert parts == [""] + parts[1..];
      }
    } else {
      var parts' := [p[1..]] + parts[1..];
      assert parts'[1..] == parts[1..];
      assert forall k :: 0 <= k < |parts'| ==> d !in parts'[k] by {
        forall k | 0 <= k < |parts'| ensures d !in parts'[k] {
          if k == 0 {
            assert forall c :: c in p[1..] ==> c in p;
          }
        }
      }
      SplitJoin(parts', d);
      var s := Join(parts, [d]);
      assert s == [p[0]] + Join(parts', [d]);
      assert s[1..] == Join(parts', [d]);
      assert [p[0]] + p[1..] == p;
      assert parts == [[p[0]] + parts'[0]] + parts'[1..];
    }
  }

  /**
   * `s.replace(/p/g, r)` for a pattern of literal characters: the occurrences of `p` found
   * scanning left to right without overlap are each replaced by `r`.
   */
  function ReplaceAll(s: string, p: string, r: string): string
    requires |p| > 0
  {
    if |s| == 0 then ""
    else if StartsWith(s, p) then r + ReplaceAll(s[|p|..], p, r)
    else [s[0]] + ReplaceAll(s[1..], p, r)
  }

  /** A string without an occurrence of the pattern is left unchanged. */
  lemma {:induction false} ReplaceAllAbsent(s: string, p: string, r: string)
    requires |p| > 0 && !Contains(s, p)
    ensures ReplaceAll(s, p, r) == s
  {
    if |s| > 0 {
      ContainsUncons(s, p);
      ReplaceAllAbsent(s[1..], p, r);
      assert s == [s[0]] + s[1..];
    }
  }

  /** A prefix that lacks the pattern's first character passes through unchanged. */
  lemma {:induction false} ReplaceAllSkipPrefix(a: string, b: string, p: string, r: string)
    requires |p| > 0 && p[0] !in a
    ensures ReplaceAll(a + b, p, r) == a + ReplaceAll(b, p, r)
  {
    if |a| > 0 {
      var s := a + b;
      assert s[0] == a[0] && !StartsWith(s, p);
      assert s[1..] == a[1..] + b;
      assert p[0] !in a[1..] by {
        assert forall c :: c in a[1..] ==> c in a;
      }
      ReplaceAllSkipPrefix(a[1..], b, p, r);
      assert a == [a[0]] + a[1..];
    } else {
      assert a + b == b;
    }
  }

  /** Every `c` in `a` is followed, inside `a`, by another character: no `cc`, and `a` does not end with `c`. */
  predicate NoOpenPair(a: string, c: char) {
    forall i :: 0 <= i < |a| && a[i] == c ==> i + 1 < |a| && a[i + 1] != c
  }

  /**
   * A prefix in which the pattern's doubled opening character never appears doubled holds no
   * occurrence of the pattern, whatever follows it, so it passes through unchanged.
   */
  lemma {:induction false} ReplaceAllSkipUnpaired(a: string, b: string, p: string, r: string)
    requires |p| >= 2 && p[0] == p[1] && NoOpenPair(a, p[0])
    ensures ReplaceAll(a + b, p, r) == a + ReplaceAll(b, p, r)
  {
    if |a| > 0 {
      var s := a + b;
      assert s[0] == a[0];
      if a[0] == p[0] {
        assert s[1] == a[1];
      }
      assert !StartsWith(s, p);
      assert s[1..] == a[1..] + b;
      assert NoOpenPair(a[1..], p[0]) by {
        forall i | 0 <= i < |a[1..]| && a[1..][i] == p[0] ensures i + 1 < |a[1..]| && a[1..][i + 1] != p[0] {
          assert a[1..][i] == a[i + 1];
        }
      }
      ReplaceAllSkipUnpaired(a[1..], b, p, r);
      assert a == [a[0]] + a[1..];
    } else {
      assert a + b == b;
    }
  }

  /**
   * Text made of a doubled opening character and a body free of it cannot hold a pattern that
   * starts with that doubled character but continues differently, so it passes through whole.
   */
  lemma ReplaceAllSkipDoubled(c: char, body: string, rest: string, p: string, r: string)
    requires |p| >= 3 && p[0] == c && p[1] == c
    requires |body| > 0 && body[0] != p[2] && c !in body
    ensures ReplaceAll([c, c] + body + rest, p, r) == [c, c] + body + ReplaceAll(rest, p, r)
  {
    var s := [c, c] + body + rest;
    assert s[2] == body[0];
    assert !StartsWith(s, p);
    assert s[1..] == [c] + body + rest;
    assert s[1..][1] == body[0];
    assert !StartsWith(s[1..], p);
    assert s[1..][1..] == body + rest;
    ReplaceAllSkipPrefix(body, rest, p, r);
  }

  /** An occurrence at the front is replaced and scanning resumes after it. */
  lemma ReplaceAllAtFront(b: string, p: string, r: string)
    requires |p| > 0
    ensures ReplaceAll(p + b, p, r) == r + ReplaceAll(b, p, r)
  {
    assert (p + b)[..|p|] == p;
    assert (p + b)[|p|..] == b;
  }

  /** ASCII `toLowerCase` of one character. */
  function LowerChar(c: char): char {
    if 'A' <= c <= 'Z' then (c as int - 'A' as int + 'a' as int) as char else c
  }

  /** `s.toLowerCase()` for ASCII letters; other characters are kept as they are. */
  function ToLower(s: string): (r: string)
    ensures |r| == |s|
    ensures forall k :: 0 <= k < |s| ==> r[k] == LowerChar(s[k])
  {
    seq(|s|, k requires 0 <= k < |s| => LowerChar(s[k]))
  }

  /** The decimal rendering of a natural number, as `${n}` gives it. */
  function NatToString(n: nat): (r: string)
    ensures |r| >= 1 && forall k :: 0 <= k < |r| ==> '0' <= r[k] <= '9'
    ensures n < 10 ==> r == [(n + '0' as int) as char]
  {
    var last := [(n % 10 + '0' as int) as char];
    if n < 10 then last else NatToString(n / 10) + last
  }
}
