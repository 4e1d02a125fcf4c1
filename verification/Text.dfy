/** Text files as sequences of lines, `String.includes`, and the rewriting of the first line that
    matches an anchored pattern (a JavaScript `replace` with the `m` flag and without the `g` flag). */
module Text {
  /** A file split at its newlines; a final newline shows as a last, empty line. */
  type Lines = seq<string>

  predicate StartsWith(s: string, p: string) {
    |p| <= |s| && s[..|p|] == p
  }

  lemma StartChars(s: string, p: string)
    ensures StartsWith(s, p) ==> forall i :: 0 <= i < |p| ==> s[i] == p[i]
  {
  }

  predicate EndsWith(s: string, p: string) {
    |p| <= |s| && s[|s| - |p|..] == p
  }

  predicate Includes(s: string, p: string) {
    exists i :: 0 <= i <= |s| && StartsWith(s[i..], p)
  }

  /** A needle without a newline occurs in a file exactly when it occurs in one of its lines. */
  predicate TextIncludes(lines: Lines, p: string) {
    exists i :: 0 <= i < |lines| && Includes(lines[i], p)
  }

  lemma IncludesChars(s: string, p: string, k: nat)
    requires Includes(s, p) && k < |p|
    ensures p[k] in s
  {
    var i :| 0 <= i <= |s| && StartsWith(s[i..], p);
    assert s[i..][..|p|][k] == s[i + k];
  }

  lemma IncludesAt(s: string, a: string, p: string, b: string)
    requires s == a + p + b
    ensures Includes(s, p)
  {
    assert s[|a|..][..|p|] == p;
  }

  // ----- a text between two others -----

  /** An occurrence of `p` that starts in `x` and ends in the `v` behind it. */
  predicate Straddles(x: string, v: string, p: string) {
    exists j :: 0 < j < |p| && EndsWith(x, p[..j]) && StartsWith(v, p[j..])
  }

  /** No occurrence of `p` that touches `v` goes on behind `v`. */
  ghost predicate Sealed(v: string, p: string) {
    && (forall j :: 0 < j < |p| ==> !EndsWith(v, p[..j]))
    && !Includes(p, v)
  }

  lemma SuffixIs(v: string, p: string, j: nat)
    requires j <= |v| && j <= |p| && forall k :: 0 <= k < j ==> v[|v| - j + k] == p[k]
    ensures EndsWith(v, p[..j])
  {
    assert v[|v| - j..] == p[..j];
  }

  lemma SuffixChars(v: string, p: string, j: nat)
    requires j <= |p|
    ensures EndsWith(v, p[..j]) ==> j <= |v| && forall k :: 0 <= k < j ==> v[|v| - j + k] == p[k]
  {
    if EndsWith(v, p[..j]) {
      forall k | 0 <= k < j ensures v[|v| - j + k] == p[k] {
        assert v[|v| - j..][k] == p[..j][k];
      }
    }
  }

  /** What ends in a character that `p` does not hold is sealed. */
  lemma SealedByLast(v: string, p: string)
    requires v != "" && v[|v| - 1] !in p
    ensures Sealed(v, p)
  {
    forall j | 0 < j < |p| ensures !EndsWith(v, p[..j]) {
      SuffixChars(v, p, j);
      assert p[j - 1] in p;
    }
    LastIncluded(p, v);
  }

  lemma LastIncluded(s: string, p: string)
    requires p != ""
    ensures Includes(s, p) ==> p[|p| - 1] in s
  {
    if Includes(s, p) {
      IncludesChars(s, p, |p| - 1);
    }
  }

  lemma SealedStops(v: string, p: string, j: nat)
    requires Sealed(v, p) && 0 < j < |p| && j <= |v|
    ensures exists k :: 0 <= k < j && v[|v| - j + k] != p[k]
  {
    if forall k :: 0 <= k < j ==> v[|v| - j + k] == p[k] {
      SuffixIs(v, p, j);
    }
  }

  ghost predicate At(s: string, i: nat, p: string) {
    i + |p| <= |s| && forall k :: 0 <= k < |p| ==> s[i + k] == p[k]
  }

  lemma IncludedAt(s: string, i: nat, p: string)
    requires At(s, i, p)
    ensures Includes(s, p)
  {
    assert s[i..][..|p|] == p;
  }

  lemma IncludedSomewhere(s: string, p: string) returns (i: nat)
    requires Includes(s, p)
    ensures At(s, i, p)
  {
    i :| 0 <= i <= |s| && StartsWith(s[i..], p);
    forall k | 0 <= k < |p| ensures s[i + k] == p[k] {
      assert s[i..][..|p|][k] == s[i + k];
    }
  }

  lemma IncludesLonger(a: string, s: string, b: string, p: string)
    requires Includes(s, p)
    ensures Includes(a + s + b, p)
  {
    var i := IncludedSomewhere(s, p);
    IncludedAt(a + s + b, |a| + i, p);
  }

  /** Where a text occurs around a sealed one. */
  lemma IncludesAround(x: string, v: string, rest: string, p: string)
    requires Sealed(v, p)
    ensures Includes(x + v + rest, p) <==> (Includes(x, p) || Includes(v, p) || Straddles(x, v, p) || Includes(rest, p))
  {
    var s := x + v + rest;
    if Includes(s, p) {
      var i := IncludedSomewhere(s, p);
      OccurrenceAround(x, v, rest, p, i);
    }
    assert s == "" + x + (v + rest) == (x + v) + rest + "";
    if Includes(x, p) {
      IncludesLonger("", x, v + rest, p);
    } else if Includes(v, p) {
      IncludesLonger(x, v, rest, p);
    } else if Includes(rest, p) {
      IncludesLonger(x + v, rest, "", p);
    } else if Straddles(x, v, p) {
      StraddleIncludes(x, v, rest, p);
    }
  }

  lemma StraddleIncludes(x: string, v: string, rest: string, p: string)
    requires Straddles(x, v, p)
    ensures Includes(x + v + rest, p)
  {
    var j :| 0 < j < |p| && EndsWith(x, p[..j]) && StartsWith(v, p[j..]);
    SuffixChars(x, p, j);
    PrefixChars(v, p, j);
    var i, s := |x| - j, x + v + rest;
    forall k | 0 <= k < |p| ensures s[i + k] == p[k] {
      assert k < j ==> s[i + k] == x[i + k];
      assert k >= j ==> s[i + k] == v[k - j];
    }
    IncludedAt(s, i, p);
  }

  lemma PrefixChars(v: string, p: string, j: nat)
    requires j <= |p| && StartsWith(v, p[j..])
    ensures forall k :: j <= k < |p| ==> v[k - j] == p[k]
  {
    forall k | j <= k < |p| ensures v[k - j] == p[k] {
      assert v[..|p| - j][k - j] == p[j..][k - j];
    }
  }

  lemma OccurrenceAround(x: string, v: string, rest: string, p: string, i: nat)
    requires Sealed(v, p) && At(x + v + rest, i, p)
    ensures Includes(x, p) || Includes(v, p) || Straddles(x, v, p) || Includes(rest, p)
  {
    var a, b, end := |x|, |x| + |v|, i + |p|;
    if end <= a {
      IncludedAt(x, i, p);
    } else if i >= b {
      IncludedAt(rest, i - b, p);
    } else if i >= a && end <= b {
      IncludedAt(v, i - a, p);
    } else if i < a && end <= b {
      OccurrenceStraddles(x, v, rest, p, i);
    } else if i < a {
      IncludedAt(p, a - i, v);
    } else {
      SealedStops(v, p, b - i);
    }
  }

  lemma OccurrenceStraddles(x: string, v: string, rest: string, p: string, i: nat)
    requires At(x + v + rest, i, p) && i < |x| < i + |p| <= |x| + |v|
    ensures Straddles(x, v, p)
  {
    var j := |x| - i;
    SuffixIs(x, p, j);
    assert v[..|p| - j] == p[j..];
  }

  /** `^<prefix>.*<suffix>$`; the parts do not overlap. */
  datatype Pattern = Pattern(prefix: string, suffix: string) {
    predicate Matches(line: string) {
      |prefix| + |suffix| <= |line| && StartsWith(line, prefix) && EndsWith(line, suffix)
    }
  }

  /** Two patterns that no line can match at once: their prefixes differ at some position. */
  predicate Apart(p: Pattern, q: Pattern) {
    exists i :: 0 <= i < |p.prefix| && i < |q.prefix| && p.prefix[i] != q.prefix[i]
  }

  lemma ApartExcludes(p: Pattern, q: Pattern, line: string)
    requires Apart(p, q) && p.Matches(line)
    ensures !q.Matches(line)
  {
    var i :| 0 <= i < |p.prefix| && i < |q.prefix| && p.prefix[i] != q.prefix[i];
    assert line[..|p.prefix|][i] == line[i];
  }

  lemma NotMatching(p: Pattern, line: string, i: nat)
    requires i < |line| && i < |p.prefix| && p.prefix[i] != line[i]
    ensures !p.Matches(line)
  {
    assert |p.prefix| <= |line| ==> line[..|p.prefix|][i] == line[i];
  }

  /** The index of the first matching line, or the number of lines. */
  function FirstMatch(lines: Lines, p: Pattern): (i: nat)
    ensures i <= |lines|
    ensures i < |lines| ==> p.Matches(lines[i])
    ensures forall j :: 0 <= j < i ==> !p.Matches(lines[j])
  {
    if lines == [] then 0 else if p.Matches(lines[0]) then 0 else 1 + FirstMatch(lines[1..], p)
  }

  predicate Anchored(lines: Lines, p: Pattern) {
    FirstMatch(lines, p) < |lines|
  }

  lemma FirstMatchIs(lines: Lines, p: Pattern, i: nat)
    requires i <= |lines| && (i < |lines| ==> p.Matches(lines[i]))
    requires forall j :: 0 <= j < i ==> !p.Matches(lines[j])
    ensures FirstMatch(lines, p) == i
  {
  }

  /** One `replace` call: a pattern and the line that takes the place of its first match. */
  datatype Edit = Edit(pattern: Pattern, line: string)

  function Rewrite(lines: Lines, e: Edit): (r: Lines)
    ensures |r| == |lines|
  {
    var i := FirstMatch(lines, e.pattern);
    if i < |lines| then lines[i := e.line] else lines
  }

  /** A chain of `replace` calls, first to last. */
  function RewriteAll(lines: Lines, edits: seq<Edit>): (r: Lines)
    ensures |r| == |lines|
    decreases |edits|
  {
    if edits == [] then lines else RewriteAll(Rewrite(lines, edits[0]), edits[1..])
  }

  /** Edits that cannot disturb each other: no line matches two patterns, and what an edit writes
      still matches its own pattern. */
  ghost predicate Independent(edits: seq<Edit>) {
    && (forall i :: 0 <= i < |edits| ==> edits[i].pattern.Matches(edits[i].line))
    && (forall i, j :: 0 <= i < |edits| && 0 <= j < |edits| && i != j ==> Apart(edits[i].pattern, edits[j].pattern))
  }

  lemma RewriteKeepsMatches(lines: Lines, e: Edit, p: Pattern)
    requires e.pattern.Matches(e.line) && (p == e.pattern || Apart(e.pattern, p))
    ensures FirstMatch(Rewrite(lines, e), p) == FirstMatch(lines, p)
  {
    var i, k := FirstMatch(lines, e.pattern), FirstMatch(lines, p);
    var r := Rewrite(lines, e);
    if i < |lines| && p != e.pattern {
      ApartExcludes(e.pattern, p, lines[i]);
      ApartExcludes(e.pattern, p, e.line);
    }
    FirstMatchIs(r, p, k);
  }

  /** What a chain of independent edits leaves on line `i`. */
  function Rewritten(lines: Lines, edits: seq<Edit>, i: nat): string
    requires i < |lines|
  {
    if edits == [] then lines[i]
    else if FirstMatch(lines, edits[0].pattern) == i then edits[0].line
    else Rewritten(lines, edits[1..], i)
  }

  lemma {:induction false} RewriteAllAt(lines: Lines, edits: seq<Edit>, i: nat)
    requires Independent(edits) && i < |lines|
    ensures RewriteAll(lines, edits)[i] == Rewritten(lines, edits, i)
    decreases |edits|
  {
    if edits != [] {
      var e, rest := edits[0], edits[1..];
      var r := Rewrite(lines, e);
      assert Independent(rest);
      RewriteAllAt(r, rest, i);
      RewrittenAfter(lines, r, rest, i, e);
    }
  }

  lemma {:induction false} RewrittenAfter(lines: Lines, r: Lines, edits: seq<Edit>, i: nat, e: Edit)
    requires i < |lines| && r == Rewrite(lines, e) && e.pattern.Matches(e.line)
    requires forall k :: 0 <= k < |edits| ==> Apart(e.pattern, edits[k].pattern)
    ensures Rewritten(r, edits, i) == if FirstMatch(lines, e.pattern) == i then e.line else Rewritten(lines, edits, i)
  {
    if edits != [] {
      RewriteKeepsMatches(lines, e, edits[0].pattern);
      if FirstMatch(lines, e.pattern) == i {
        ApartExcludes(e.pattern, edits[0].pattern, lines[i]);
      }
      RewrittenAfter(lines, r, edits[1..], i, e);
    }
  }

  lemma {:induction false} RewriteAllKeepsMatches(lines: Lines, edits: seq<Edit>, p: Pattern)
    requires Independent(edits)
    requires forall k :: 0 <= k < |edits| ==> edits[k].pattern == p || Apart(edits[k].pattern, p)
    ensures FirstMatch(RewriteAll(lines, edits), p) == FirstMatch(lines, p)
    decreases |edits|
  {
    if edits != [] {
      assert Independent(edits[1..]);
      RewriteKeepsMatches(lines, edits[0], p);
      RewriteAllKeepsMatches(Rewrite(lines, edits[0]), edits[1..], p);
    }
  }

  ghost predicate SamePatterns(a: seq<Edit>, b: seq<Edit>) {
    |a| == |b| && forall i :: 0 <= i < |a| ==> a[i].pattern == b[i].pattern
  }

  /** The last of two chains with the same patterns wins. */
  lemma {:induction false} RewriteAllLastWins(lines: Lines, a: seq<Edit>, b: seq<Edit>)
    requires Independent(a) && Independent(b) && SamePatterns(a, b)
    ensures RewriteAll(RewriteAll(lines, a), b) == RewriteAll(lines, b)
  {
    var mid := RewriteAll(lines, a);
    forall i | 0 <= i < |lines|
      ensures RewriteAll(mid, b)[i] == RewriteAll(lines, b)[i]
    {
      RewriteAllAt(mid, b, i);
      RewriteAllAt(lines, b, i);
      RewriteAllAt(lines, a, i);
      forall k | 0 <= k < |b| ensures FirstMatch(mid, b[k].pattern) == FirstMatch(lines, b[k].pattern) {
        forall l | 0 <= l < |a| ensures a[l].pattern == b[k].pattern || Apart(a[l].pattern, b[k].pattern) {
          assert a[l].pattern == b[l].pattern;
        }
        RewriteAllKeepsMatches(lines, a, b[k].pattern);
      }
      RewrittenAgree(mid, lines, a, b, i);
    }
  }

  lemma {:induction false} RewrittenAgree(mid: Lines, lines: Lines, a: seq<Edit>, b: seq<Edit>, i: nat)
    requires |mid| == |lines| && i < |lines| && SamePatterns(a, b)
    requires mid[i] == Rewritten(lines, a, i)
    requires forall k :: 0 <= k < |b| ==> FirstMatch(mid, b[k].pattern) == FirstMatch(lines, b[k].pattern)
    ensures Rewritten(mid, b, i) == Rewritten(lines, b, i)
  {
    if b != [] && FirstMatch(lines, b[0].pattern) != i {
      assert a[0].pattern == b[0].pattern;
      forall k | 0 <= k < |b[1..]|
        ensures FirstMatch(mid, b[1..][k].pattern) == FirstMatch(lines, b[1..][k].pattern)
      {
        assert b[1..][k] == b[k + 1];
      }
      RewrittenAgree(mid, lines, a[1..], b[1..], i);
    }
  }

  /** Line `i` is not the first match of any of the patterns. */
  ghost predicate Untouched(lines: Lines, edits: seq<Edit>, i: nat) {
    forall k :: 0 <= k < |edits| ==> FirstMatch(lines, edits[k].pattern) != i
  }

  lemma {:induction false} RewrittenCases(lines: Lines, edits: seq<Edit>, i: nat)
    requires i < |lines|
    ensures Untouched(lines, edits, i) ==> Rewritten(lines, edits, i) == lines[i]
    ensures Untouched(lines, edits, i)
         || exists k :: 0 <= k < |edits| && FirstMatch(lines, edits[k].pattern) == i
                     && Rewritten(lines, edits, i) == edits[k].line
  {
    if edits != [] && FirstMatch(lines, edits[0].pattern) != i {
      var rest := edits[1..];
      RewrittenCases(lines, rest, i);
      assert forall k :: 0 <= k < |rest| ==> rest[k] == edits[k + 1];
      assert Untouched(lines, rest, i) ==> Untouched(lines, edits, i);
      if !Untouched(lines, rest, i) {
        var k :| 0 <= k < |rest| && FirstMatch(lines, rest[k].pattern) == i
            && Rewritten(lines, rest, i) == rest[k].line;
        assert FirstMatch(lines, edits[k + 1].pattern) == i;
      }
    }
  }

  lemma {:induction false} RewrittenHit(lines: Lines, edits: seq<Edit>, k: nat)
    requires Independent(edits) && k < |edits| && Anchored(lines, edits[k].pattern)
    ensures Rewritten(lines, edits, FirstMatch(lines, edits[k].pattern)) == edits[k].line
  {
    if k > 0 {
      var i := FirstMatch(lines, edits[k].pattern);
      assert Apart(edits[0].pattern, edits[k].pattern);
      if FirstMatch(lines, edits[0].pattern) == i {
        ApartExcludes(edits[0].pattern, edits[k].pattern, lines[i]);
      }
      assert Independent(edits[1..]);
      RewrittenHit(lines, edits[1..], k - 1);
    }
  }

  /** A chain of independent edits writes each edit's line over its first match and leaves every other line. */
  lemma RewriteAllKeeps(lines: Lines, edits: seq<Edit>)
    requires Independent(edits)
    ensures forall i :: 0 <= i < |lines| && Untouched(lines, edits, i) ==> RewriteAll(lines, edits)[i] == lines[i]
    ensures forall k :: 0 <= k < |edits| && Anchored(lines, edits[k].pattern) ==>
              RewriteAll(lines, edits)[FirstMatch(lines, edits[k].pattern)] == edits[k].line
  {
    forall i | 0 <= i < |lines| && Untouched(lines, edits, i) ensures RewriteAll(lines, edits)[i] == lines[i] {
      RewriteAllAt(lines, edits, i);
      RewrittenCases(lines, edits, i);
    }
    forall k | 0 <= k < |edits| && Anchored(lines, edits[k].pattern)
      ensures RewriteAll(lines, edits)[FirstMatch(lines, edits[k].pattern)] == edits[k].line
    {
      RewriteAllAt(lines, edits, FirstMatch(lines, edits[k].pattern));
      RewrittenHit(lines, edits, k);
    }
  }

  /** What a rewritten file mentions: what the applied edits wrote, and what the untouched lines said. */
  lemma RewriteAllMentions(lines: Lines, edits: seq<Edit>, needle: string)
    requires Independent(edits)
    ensures TextIncludes(RewriteAll(lines, edits), needle)
       <==> ((exists k :: 0 <= k < |edits| && Anchored(lines, edits[k].pattern) && Includes(edits[k].line, needle))
          || (exists i :: 0 <= i < |lines| && Untouched(lines, edits, i) && Includes(lines[i], needle)))
  {
    var r := RewriteAll(lines, edits);
    if TextIncludes(r, needle) {
      var i :| 0 <= i < |r| && Includes(r[i], needle);
      RewriteAllAt(lines, edits, i);
      RewrittenCases(lines, edits, i);
    }
    RewriteAllKeeps(lines, edits);
  }

  lemma RewritesCommute(lines: Lines, e: Edit, f: Edit)
    requires Independent([e, f])
    ensures Rewrite(Rewrite(lines, e), f) == Rewrite(Rewrite(lines, f), e)
  {
    assert Apart([e, f][0].pattern, [e, f][1].pattern) && Apart([e, f][1].pattern, [e, f][0].pattern);
    assert [e, f][0].pattern.Matches(e.line) && [e, f][1].pattern.Matches(f.line);
    RewriteKeepsMatches(lines, e, f.pattern);
    RewriteKeepsMatches(lines, f, e.pattern);
    var i := FirstMatch(lines, e.pattern);
    if i < |lines| {
      ApartExcludes(e.pattern, f.pattern, lines[i]);
    }
  }

  lemma {:induction false} RewriteAllSnoc(lines: Lines, edits: seq<Edit>, e: Edit)
    ensures RewriteAll(lines, edits + [e]) == Rewrite(RewriteAll(lines, edits), e)
    decreases |edits|
  {
    if edits == [] {
      assert [e][1..] == [];
    } else {
      assert (edits + [e])[1..] == edits[1..] + [e];
      RewriteAllSnoc(Rewrite(lines, edits[0]), edits[1..], e);
    }
  }

  // ----- whitespace -----

  /** The characters that `trim` and `trimEnd` remove. */
  predicate IsSpace(c: char) {
    || '\U{0009}' <= c <= '\U{000D}' || c == ' ' || c == '\U{00A0}' || c == '\U{1680}'
    || '\U{2000}' <= c <= '\U{200A}' || c == '\U{2028}' || c == '\U{2029}' || c == '\U{202F}'
    || c == '\U{205F}' || c == '\U{3000}' || c == '\U{FEFF}'
  }

  /** White space and line terminators as `trim` knows them, by code point. */
  lemma SpaceCodes(c: char)
    ensures IsSpace(c)
       <==> (c as int in {9, 10, 11, 12, 13, 32, 160, 5760, 8232, 8233, 8239, 8287, 12288, 65279}
             || 8192 <= c as int <= 8202)
  {
  }

  function TrimEnd(s: string): (r: string)
    ensures r <= s
    ensures r != "" ==> !IsSpace(r[|r| - 1])
    ensures forall i :: |r| <= i < |s| ==> IsSpace(s[i])
  {
    if s != "" && IsSpace(s[|s| - 1]) then TrimEnd(s[..|s| - 1]) else s
  }

  function TrimStart(s: string): (r: string)
    ensures |r| <= |s| && r == s[|s| - |r|..]
    ensures r != "" ==> !IsSpace(r[0])
  {
    if s != "" && IsSpace(s[0]) then
      var r := TrimStart(s[1..]);
      assert s[|s| - |r|..] == s[1..][|s| - 1 - |r|..];
      r
    else s
  }

  /** `trimEnd` of a whole file: blank lines at the end go, then the last line is trimmed. */
  function TrimEndText(lines: Lines): (r: Lines)
    ensures |r| <= |lines|
  {
    if lines == [] then []
    else
      var n := |lines| - 1;
      if TrimEnd(lines[n]) == "" && n > 0 then TrimEndText(lines[..n]) else lines[..n] + [TrimEnd(lines[n])]
  }

  /** `trimEnd` keeps every line but the last non-blank one, which it trims, and drops the blank ones behind it. */
  lemma {:induction false} TrimEndTextKeeps(lines: Lines)
    requires lines != []
    ensures var t := TrimEndText(lines);
            && t != [] && (forall i :: 0 <= i < |t| - 1 ==> t[i] == lines[i]) && t[|t| - 1] == TrimEnd(lines[|t| - 1])
            && forall i :: |t| <= i < |lines| ==> TrimEnd(lines[i]) == ""
    decreases |lines|
  {
    var n := |lines| - 1;
    if TrimEnd(lines[n]) == "" && n > 0 {
      TrimEndTextKeeps(lines[..n]);
    }
  }

  lemma FirstMatchAppend(a: Lines, b: Lines, p: Pattern)
    ensures FirstMatch(a + b, p) == if FirstMatch(a, p) < |a| then FirstMatch(a, p) else |a| + FirstMatch(b, p)
  {
    var i := if FirstMatch(a, p) < |a| then FirstMatch(a, p) else |a| + FirstMatch(b, p);
    assert forall j :: 0 <= j < i && j >= |a| ==> (a + b)[j] == b[j - |a|];
    assert forall j :: 0 <= j < |a| ==> (a + b)[j] == a[j];
    FirstMatchIs(a + b, p, i);
  }

  lemma RewriteAppend(a: Lines, b: Lines, e: Edit)
    ensures Rewrite(a + b, e) == if FirstMatch(a, e.pattern) < |a| then Rewrite(a, e) + b else a + Rewrite(b, e)
  {
    FirstMatchAppend(a, b, e.pattern);
    var i := FirstMatch(a + b, e.pattern);
    if i < |a + b| {
      ReplacedIn(a, b, i, e.line);
    }
  }

  lemma ReplacedIn(a: Lines, b: Lines, i: nat, line: string)
    requires i < |a + b|
    ensures (a + b)[i := line] == if i < |a| then a[i := line] + b else a + b[i - |a| := line]
  {
  }

  /** A key pattern such as `^DB_TYPE=.*$`: no suffix, and a prefix that does not end in a space. */
  predicate KeyPattern(p: Pattern) {
    p.suffix == "" && p.prefix != "" && !IsSpace(p.prefix[|p.prefix| - 1])
  }

  lemma TrimEndKeepsKey(line: string, p: Pattern)
    requires KeyPattern(p)
    ensures p.Matches(TrimEnd(line)) == p.Matches(line)
    ensures p.Matches(line) ==> TrimEnd(line) != ""
  {
    var t, n := TrimEnd(line), |p.prefix|;
    assert t == line[..|t|];
    if p.Matches(line) {
      assert line[..n][n - 1] == line[n - 1];
      assert t[..n] == line[..n];
    }
    if p.Matches(t) {
      assert t[..n] == line[..n];
    }
  }

  /** Trimming one line and rewriting it commute. */
  lemma RewriteLast(line: string, e: Edit)
    requires KeyPattern(e.pattern) && e.pattern.Matches(e.line) && TrimEnd(e.line) == e.line
    ensures Rewrite([TrimEnd(line)], e) == [TrimEnd(Rewrite([line], e)[0])]
  {
    TrimEndKeepsKey(line, e.pattern);
    FirstMatchIs([line], e.pattern, if e.pattern.Matches(line) then 0 else 1);
    FirstMatchIs([TrimEnd(line)], e.pattern, if e.pattern.Matches(line) then 0 else 1);
  }

  lemma TrimEndTextSnoc(init: Lines, last: string)
    ensures TrimEndText(init + [last])
         == if TrimEnd(last) == "" && init != [] then TrimEndText(init) else init + [TrimEnd(last)]
  {
    assert (init + [last])[..|init|] == init;
  }

  lemma {:induction false} TrimEndTextCommutes(lines: Lines, e: Edit)
    requires KeyPattern(e.pattern) && e.pattern.Matches(e.line) && TrimEnd(e.line) == e.line
    ensures TrimEndText(Rewrite(lines, e)) == Rewrite(TrimEndText(lines), e)
    decreases |lines|
  {
    if lines != [] {
      var n := |lines| - 1;
      var init, last := lines[..n], lines[n];
      assert lines == init + [last];
      TrimEndTextSnoc(init, last);
      RewriteAppend(init, [last], e);
      TrimEndKeepsKey(last, e.pattern);
      if TrimEnd(last) == "" && n > 0 {
        TrimEndTextSnoc(Rewrite(init, e), last);
        TrimEndTextCommutes(init, e);
        BlankLast(init, last, e);
      } else {
        KeptLast(init, last, e);
      }
    }
  }

  lemma BlankLast(init: Lines, last: string, e: Edit)
    requires KeyPattern(e.pattern) && !e.pattern.Matches(last)
    ensures Rewrite(init + [last], e) == Rewrite(init, e) + [last]
  {
    RewriteAppend(init, [last], e);
    FirstMatchIs([last], e.pattern, 1);
  }

  lemma KeptLast(init: Lines, last: string, e: Edit)
    requires KeyPattern(e.pattern) && e.pattern.Matches(e.line) && TrimEnd(e.line) == e.line
    requires TrimEnd(last) != "" || init == []
    ensures TrimEndText(Rewrite(init + [last], e)) == Rewrite(init + [TrimEnd(last)], e)
  {
    RewriteAppend(init, [last], e);
    RewriteAppend(init, [TrimEnd(last)], e);
    if Anchored(init, e.pattern) {
      TrimEndTextSnoc(Rewrite(init, e), last);
    } else {
      KeptRewritten(init, last, e);
    }
  }

  lemma KeptRewritten(init: Lines, last: string, e: Edit)
    requires KeyPattern(e.pattern) && e.pattern.Matches(e.line) && TrimEnd(e.line) == e.line
    requires TrimEnd(last) != "" || init == []
    ensures TrimEndText(init + Rewrite([last], e)) == init + Rewrite([TrimEnd(last)], e)
  {
    TrimEndKeepsKey(e.line, e.pattern);
    RewriteLast(last, e);
    var line := Rewrite([last], e)[0];
    assert Rewrite([last], e) == [line];
    TrimEndTextSnoc(init, line);
  }

  lemma {:induction false} TrimEndTextKeepsKey(lines: Lines, p: Pattern)
    requires KeyPattern(p)
    ensures Anchored(TrimEndText(lines), p) == Anchored(lines, p)
    decreases |lines|
  {
    if lines != [] {
      var n := |lines| - 1;
      assert lines == lines[..n] + [lines[n]];
      TrimEndKeepsKey(lines[n], p);
      FirstMatchAppend(lines[..n], [lines[n]], p);
      FirstMatchAppend(lines[..n], [TrimEnd(lines[n])], p);
      if TrimEnd(lines[n]) == "" && n > 0 {
        TrimEndTextKeepsKey(lines[..n], p);
      }
    }
  }

  lemma TrimEndMentions(line: string, needle: string)
    requires needle != "" && !IsSpace(needle[|needle| - 1])
    ensures Includes(TrimEnd(line), needle) == Includes(line, needle)
  {
    var t := TrimEnd(line);
    if Includes(line, needle) {
      var i := IncludedSomewhere(line, needle);
      assert line[i + |needle| - 1] == needle[|needle| - 1];
      IncludedAt(t, i, needle);
    }
    if Includes(t, needle) {
      IncludesLonger("", t, line[|t|..], needle);
      assert "" + t + line[|t|..] == line;
    }
  }

  lemma {:induction false} TrimEndTextMentions(lines: Lines, needle: string)
    requires needle != "" && !IsSpace(needle[|needle| - 1])
    ensures TextIncludes(TrimEndText(lines), needle) == TextIncludes(lines, needle)
    decreases |lines|
  {
    if lines != [] {
      var n := |lines| - 1;
      var init, last := lines[..n], lines[n];
      TrimEndMentions(last, needle);
      MentionsSnoc(init, last, needle);
      assert lines == init + [last];
      if TrimEnd(last) == "" && n > 0 {
        assert !Includes("", needle);
        TrimEndTextMentions(init, needle);
      } else {
        MentionsSnoc(init, TrimEnd(last), needle);
      }
    }
  }

  lemma MentionsSnoc(init: Lines, last: string, needle: string)
    ensures TextIncludes(init + [last], needle) <==> TextIncludes(init, needle) || Includes(last, needle)
  {
    var all := init + [last];
    if TextIncludes(init, needle) {
      var i :| 0 <= i < |init| && Includes(init[i], needle);
      assert all[i] == init[i];
    }
    if Includes(last, needle) {
      assert all[|init|] == last;
    }
  }

  // ----- a chain of rewrites that ends with "rewrite this line, or append it" -----

  function RewriteOrAppend(lines: Lines, e: Edit): Lines {
    if Anchored(lines, e.pattern) then Rewrite(lines, e) else TrimEndText(lines) + [e.line, ""]
  }

  /** Key edits whose lines `trimEnd` leaves alone. */
  ghost predicate Tidy(edits: seq<Edit>) {
    forall k :: 0 <= k < |edits| ==> KeyPattern(edits[k].pattern) && TrimEnd(edits[k].line) == edits[k].line
  }

  lemma IndependentInit(edits: seq<Edit>, e: Edit)
    requires Independent(edits + [e])
    ensures Independent(edits) && e.pattern.Matches(e.line)
    ensures forall k :: 0 <= k < |edits| ==> Apart(edits[k].pattern, e.pattern) && Apart(e.pattern, edits[k].pattern)
  {
    var all := edits + [e];
    assert all[|edits|] == e;
    assert forall k :: 0 <= k < |edits| ==> all[k] == edits[k];
  }

  lemma ChainShape(lines: Lines, edits: seq<Edit>, e: Edit)
    requires Independent(edits + [e])
    ensures Anchored(RewriteAll(lines, edits), e.pattern) == Anchored(lines, e.pattern)
    ensures Anchored(lines, e.pattern) ==>
              RewriteOrAppend(RewriteAll(lines, edits), e) == RewriteAll(lines, edits + [e])
  {
    IndependentInit(edits, e);
    RewriteAllKeepsMatches(lines, edits, e.pattern);
    RewriteAllSnoc(lines, edits, e);
  }

  lemma {:induction false} TrimmedChain(lines: Lines, tail: Lines, edits: seq<Edit>)
    requires Tidy(edits) && forall k :: 0 <= k < |edits| ==> edits[k].pattern.Matches(edits[k].line)
    requires forall k :: 0 <= k < |edits| ==> !Anchored(tail, edits[k].pattern)
    ensures RewriteAll(TrimEndText(lines) + tail, edits) == TrimEndText(RewriteAll(lines, edits)) + tail
    decreases |edits|
  {
    if edits != [] {
      var e := edits[0];
      RewriteAppend(TrimEndText(lines), tail, e);
      TrimEndTextCommutes(lines, e);
      TrimmedChain(Rewrite(lines, e), tail, edits[1..]);
    }
  }

  lemma TailUnmatched(edits: seq<Edit>, e: Edit, line: string)
    requires Independent(edits + [e]) && Tidy(edits) && e.pattern.Matches(line)
    ensures forall k :: 0 <= k < |edits| ==> !Anchored([line, ""], edits[k].pattern)
  {
    IndependentInit(edits, e);
    forall k | 0 <= k < |edits|
      ensures !Anchored([line, ""], edits[k].pattern)
    {
      ApartExcludes(e.pattern, edits[k].pattern, line);
      FirstMatchIs([line, ""], edits[k].pattern, 2);
    }
  }

  /** The last run of such a chain wins, in both the rewriting and the appending case. */
  lemma ChainLastWins(lines: Lines, fa: seq<Edit>, ea: Edit, fb: seq<Edit>, eb: Edit)
    requires Independent(fa + [ea]) && Independent(fb + [eb])
    requires Tidy(fa) && Tidy(fb) && Tidy([ea]) && Tidy([eb]) && SamePatterns(fa, fb) && ea.pattern == eb.pattern
    ensures RewriteOrAppend(RewriteAll(RewriteOrAppend(RewriteAll(lines, fa), ea), fb), eb)
         == RewriteOrAppend(RewriteAll(lines, fb), eb)
  {
    if Anchored(lines, ea.pattern) {
      RewriteLastWins(lines, fa, ea, fb, eb);
    } else {
      AppendLastWins(lines, fa, ea, fb, eb);
    }
  }

  lemma RewriteLastWins(lines: Lines, fa: seq<Edit>, ea: Edit, fb: seq<Edit>, eb: Edit)
    requires Independent(fa + [ea]) && Independent(fb + [eb]) && SamePatterns(fa, fb) && ea.pattern == eb.pattern
    requires Anchored(lines, ea.pattern)
    ensures RewriteOrAppend(RewriteAll(RewriteOrAppend(RewriteAll(lines, fa), ea), fb), eb)
         == RewriteOrAppend(RewriteAll(lines, fb), eb)
  {
    ChainShape(lines, fa, ea);
    ChainShape(lines, fb, eb);
    ChainShape(RewriteAll(lines, fa + [ea]), fb, eb);
    AllKeepsLast(lines, fa, ea);
    assert SamePatterns(fa + [ea], fb + [eb]);
    RewriteAllLastWins(lines, fa + [ea], fb + [eb]);
  }

  /** Line `i` of a file whose end has been trimmed to `n` lines. */
  predicate TrimmedLine(lines: Lines, out: Lines, n: nat, i: nat)
    requires n <= |out| && i < |lines|
  {
    if i + 1 < n then out[i] == lines[i]
    else if i + 1 == n then out[i] == TrimEnd(lines[i])
    else TrimEnd(lines[i]) == ""
  }

  /** What stays in front of an appended line. */
  lemma AppendedKeeps(lines: Lines, edits: seq<Edit>, e: Edit)
    requires lines != [] && Independent(edits) && Independent(edits + [e]) && !Anchored(lines, e.pattern)
    ensures var out := RewriteOrAppend(RewriteAll(lines, edits), e);
            && 2 < |out| <= |lines| + 2 && out[|out| - 2..] == [e.line, ""]
            && forall i :: 0 <= i < |lines| && Untouched(lines, edits, i) ==> TrimmedLine(lines, out, |out| - 2, i)
  {
    ChainShape(lines, edits, e);
    RewriteAllKeeps(lines, edits);
    TrimEndTextKeeps(RewriteAll(lines, edits));
  }

  /** After such a chain the last pattern has its line. */
  lemma ChainAnchors(lines: Lines, edits: seq<Edit>, e: Edit)
    requires Independent(edits + [e])
    ensures Anchored(RewriteOrAppend(RewriteAll(lines, edits), e), e.pattern)
  {
    ChainShape(lines, edits, e);
    IndependentInit(edits, e);
    if Anchored(lines, e.pattern) {
      AllKeepsLast(lines, edits, e);
    } else {
      FirstMatchIs([e.line, ""], e.pattern, 0);
      FirstMatchAppend(TrimEndText(RewriteAll(lines, edits)), [e.line, ""], e.pattern);
    }
  }

  lemma AllKeepsLast(lines: Lines, edits: seq<Edit>, e: Edit)
    requires Independent(edits + [e])
    ensures FirstMatch(RewriteAll(lines, edits + [e]), e.pattern) == FirstMatch(lines, e.pattern)
  {
    var all := edits + [e];
    assert all[|edits|] == e;
    RewriteAllKeepsMatches(lines, all, e.pattern);
  }

  lemma AppendLastWins(lines: Lines, fa: seq<Edit>, ea: Edit, fb: seq<Edit>, eb: Edit)
    requires Independent(fa + [ea]) && Independent(fb + [eb])
    requires Tidy(fa) && Tidy(fb) && Tidy([ea]) && Tidy([eb]) && SamePatterns(fa, fb) && ea.pattern == eb.pattern
    requires !Anchored(lines, ea.pattern)
    ensures RewriteOrAppend(RewriteAll(RewriteOrAppend(RewriteAll(lines, fa), ea), fb), eb)
         == RewriteOrAppend(RewriteAll(lines, fb), eb)
  {
    ChainShape(lines, fa, ea);
    ChainShape(lines, fb, eb);
    IndependentInit(fa, ea);
    IndependentInit(fb, eb);
    var mid, tail := RewriteAll(lines, fa), [ea.line, ""];
    RewriteAllLastWins(lines, fa, fb);
    TailUnmatched(fb, eb, ea.line);
    TrimmedChain(mid, tail, fb);
    var trimmed := TrimEndText(RewriteAll(lines, fb));
    assert KeyPattern([eb][0].pattern);
    TrimEndTextKeepsKey(RewriteAll(lines, fb), eb.pattern);
    FirstMatchIs(tail, eb.pattern, 0);
    FirstMatchAppend(trimmed, tail, eb.pattern);
    RewriteAppend(trimmed, tail, eb);
    assert Rewrite(tail, eb) == [eb.line, ""];
  }

  /** What such a chain leaves in the file; `e` itself must not mention the needle. */
  lemma ChainMentions(lines: Lines, edits: seq<Edit>, e: Edit, needle: string)
    requires Independent(edits + [e]) && !Includes(e.line, needle)
    requires needle != "" && !IsSpace(needle[|needle| - 1])
    ensures TextIncludes(RewriteOrAppend(RewriteAll(lines, edits), e), needle)
         == TextIncludes(RewriteAll(lines, edits + [e]), needle)
  {
    ChainShape(lines, edits, e);
    if !Anchored(lines, e.pattern) {
      var mid := RewriteAll(lines, edits);
      RewriteAllSnoc(lines, edits, e);
      TrimEndTextMentions(mid, needle);
      MentionsSnoc(TrimEndText(mid), e.line, needle);
      MentionsSnoc(TrimEndText(mid) + [e.line], "", needle);
      assert TrimEndText(mid) + [e.line, ""] == TrimEndText(mid) + [e.line] + [""];
      assert !Includes("", needle);
    }
  }

  // ----- a chain of rewrites that ends with one whose own output no longer matches -----

  /** `f` cannot disturb the edits, and after it has been applied its pattern no longer matches. */
  ghost predicate SelfErasing(edits: seq<Edit>, f: Edit) {
    && !f.pattern.Matches(f.line)
    && forall k :: 0 <= k < |edits| ==>
         Apart(edits[k].pattern, f.pattern) && Apart(f.pattern, edits[k].pattern) && !edits[k].pattern.Matches(f.line)
  }

  lemma RewriteAllKeepsMatchAt(lines: Lines, edits: seq<Edit>, p: Pattern, i: nat)
    requires Independent(edits) && i < |lines|
    requires forall k :: 0 <= k < |edits| ==> Apart(edits[k].pattern, p)
    ensures p.Matches(RewriteAll(lines, edits)[i]) == p.Matches(lines[i])
  {
    RewriteAllAt(lines, edits, i);
    RewrittenCases(lines, edits, i);
    if !Untouched(lines, edits, i) {
      var k :| 0 <= k < |edits| && FirstMatch(lines, edits[k].pattern) == i
          && Rewritten(lines, edits, i) == edits[k].line;
      ApartExcludes(edits[k].pattern, p, lines[i]);
      ApartExcludes(edits[k].pattern, p, edits[k].line);
    }
  }

  lemma {:induction false} ErasingCommutes(lines: Lines, edits: seq<Edit>, f: Edit)
    requires Independent(edits) && SelfErasing(edits, f)
    ensures RewriteAll(Rewrite(lines, f), edits) == Rewrite(RewriteAll(lines, edits), f)
    decreases |edits|
  {
    if edits != [] {
      var e := edits[0];
      ErasingCommutesOne(lines, e, f);
      assert Independent(edits[1..]) && SelfErasing(edits[1..], f);
      ErasingCommutes(Rewrite(lines, e), edits[1..], f);
    }
  }

  lemma ErasingCommutesOne(lines: Lines, e: Edit, f: Edit)
    requires e.pattern.Matches(e.line) && Apart(e.pattern, f.pattern) && Apart(f.pattern, e.pattern)
    requires !e.pattern.Matches(f.line)
    ensures Rewrite(Rewrite(lines, f), e) == Rewrite(Rewrite(lines, e), f)
  {
    var i, k := FirstMatch(lines, e.pattern), FirstMatch(lines, f.pattern);
    if i < |lines| {
      ApartExcludes(e.pattern, f.pattern, lines[i]);
    }
    ApartExcludes(e.pattern, f.pattern, e.line);
    FirstMatchIs(Rewrite(lines, f), e.pattern, i);
    FirstMatchIs(Rewrite(lines, e), f.pattern, k);
  }

  /** At most the first matching line matches. */
  ghost predicate MatchesOnce(lines: Lines, p: Pattern) {
    forall j :: FirstMatch(lines, p) < j < |lines| ==> !p.Matches(lines[j])
  }

  lemma ErasingTwice(lines: Lines, fa: Edit, fb: Edit)
    requires fa.pattern == fb.pattern && !fa.pattern.Matches(fa.line) && !fb.pattern.Matches(fb.line)
    ensures Rewrite(Rewrite(lines, fa), fb) == Rewrite(lines, fb)
       <==> (!Anchored(lines, fa.pattern) || (fa.line == fb.line && MatchesOnce(lines, fa.pattern)))
  {
    var p := fa.pattern;
    var k := FirstMatch(lines, p);
    if k < |lines| {
      var once := Rewrite(lines, fa);
      var j := FirstMatch(once, p);
      assert once[k] == fa.line && Rewrite(lines, fb)[k] == fb.line && j != k;
      assert Rewrite(once, fb)[k] == fa.line;
      if j < |lines| {
        assert once[j] == lines[j] && k < j;
        assert Rewrite(once, fb)[j] == fb.line && Rewrite(lines, fb)[j] == lines[j];
        assert !MatchesOnce(lines, p);
      } else {
        forall l | k < l < |lines| ensures !p.Matches(lines[l]) {
          assert once[l] == lines[l];
        }
      }
    }
  }

  /** Exactly when the last run of such a chain wins. */
  lemma ErasingChainLastWins(lines: Lines, ea: seq<Edit>, fa: Edit, eb: seq<Edit>, fb: Edit)
    requires Independent(ea) && Independent(eb) && SamePatterns(ea, eb) && fa.pattern == fb.pattern
    requires SelfErasing(ea, fa) && SelfErasing(eb, fa) && SelfErasing(eb, fb)
    ensures Rewrite(RewriteAll(Rewrite(RewriteAll(lines, ea), fa), eb), fb) == Rewrite(RewriteAll(lines, eb), fb)
       <==> (!Anchored(lines, fa.pattern) || (fa.line == fb.line && MatchesOnce(lines, fa.pattern)))
  {
    var p, b := fa.pattern, RewriteAll(lines, eb);
    ErasingCommutes(RewriteAll(lines, ea), eb, fa);
    RewriteAllLastWins(lines, ea, eb);
    ErasingTwice(b, fa, fb);
    RewriteAllKeepsMatches(lines, eb, p);
    forall i | 0 <= i < |lines| ensures p.Matches(b[i]) == p.Matches(lines[i]) {
      RewriteAllKeepsMatchAt(lines, eb, p, i);
    }
    assert MatchesOnce(b, p) == MatchesOnce(lines, p);
  }

  lemma ErasingMentions(lines: Lines, edits: seq<Edit>, f: Edit, needle: string)
    requires Independent(edits) && SelfErasing(edits, f) && !Includes(f.line, needle)
    ensures TextIncludes(Rewrite(RewriteAll(lines, edits), f), needle)
       <==> ((exists k :: 0 <= k < |edits| && Anchored(lines, edits[k].pattern) && Includes(edits[k].line, needle))
          || (exists i :: 0 <= i < |lines| && Untouched(lines, edits, i) && i != FirstMatch(lines, f.pattern)
                       && Includes(lines[i], needle)))
  {
    var mid := RewriteAll(lines, edits);
    var r := Rewrite(mid, f);
    RewriteAllKeepsMatches(lines, edits, f.pattern);
    if TextIncludes(r, needle) {
      var i :| 0 <= i < |r| && Includes(r[i], needle);
      assert r[i] == mid[i] && i != FirstMatch(lines, f.pattern);
      RewriteAllAt(lines, edits, i);
      RewrittenCases(lines, edits, i);
    }
    forall k | 0 <= k < |edits| && Anchored(lines, edits[k].pattern)
      ensures r[FirstMatch(lines, edits[k].pattern)] == edits[k].line
    {
      var i := FirstMatch(lines, edits[k].pattern);
      ApartExcludes(edits[k].pattern, f.pattern, lines[i]);
      RewriteAllAt(lines, edits, i);
      RewrittenHit(lines, edits, k);
    }
    forall i | 0 <= i < |lines| && Untouched(lines, edits, i) && i != FirstMatch(lines, f.pattern)
      ensures r[i] == lines[i]
    {
      RewriteAllAt(lines, edits, i);
      RewrittenCases(lines, edits, i);
    }
  }
}
