/** Whole files as strings: split at the line terminators of JavaScript, rewritten line by line with the
    terminators kept, and searched. */
module TextFile {
  import opened Text

  /** `^`, `$` and `.` of a pattern with the `m` flag stop at these characters. */
  predicate IsTerminator(c: char) {
    c == '\n' || c == '\r' || c == '\U{2028}' || c == '\U{2029}'
  }

  /** The code points at which a line ends. */
  lemma TerminatorCodes(c: char)
    ensures IsTerminator(c) <==> c as int in {10, 13, 8232, 8233}
  {
  }

  ghost predicate Flat(s: string) {
    forall i :: 0 <= i < |s| ==> !IsTerminator(s[i])
  }

  ghost predicate AllFlat(lines: Lines) {
    forall i :: 0 <= i < |lines| ==> Flat(lines[i])
  }

  ghost predicate AllTerminators(ends: string) {
    forall i :: 0 <= i < |ends| ==> IsTerminator(ends[i])
  }

  function LinesOf(s: string): (r: Lines)
    ensures |r| == |EndsOf(s)| + 1
  {
    if s == "" then [""]
    else
      var rest := LinesOf(s[1..]);
      if IsTerminator(s[0]) then [""] + rest else [[s[0]] + rest[0]] + rest[1..]
  }

  /** The terminator behind each line but the last. */
  function EndsOf(s: string): string {
    if s == "" then "" else (if IsTerminator(s[0]) then [s[0]] else "") + EndsOf(s[1..])
  }

  function Unlines(lines: Lines, ends: string): string
    requires |lines| == |ends| + 1
    decreases |ends|
  {
    if ends == "" then lines[0] else lines[0] + [ends[0]] + Unlines(lines[1..], ends[1..])
  }

  // ----- reading and printing -----

  lemma {:induction false} UnlinesRead(s: string)
    ensures Unlines(LinesOf(s), EndsOf(s)) == s
  {
    if s != "" {
      UnlinesRead(s[1..]);
      var lines, ends := LinesOf(s[1..]), EndsOf(s[1..]);
      if IsTerminator(s[0]) {
        assert ([""] + lines)[1..] == lines && ([s[0]] + ends)[1..] == ends;
      } else {
        assert "" + ends == ends;
        PrependChar(s[0], lines, ends);
      }
    }
  }

  lemma PrependChar(c: char, lines: Lines, ends: string)
    requires |lines| == |ends| + 1
    ensures Unlines([[c] + lines[0]] + lines[1..], ends) == [c] + Unlines(lines, ends)
  {
    if ends != "" {
      assert ([[c] + lines[0]] + lines[1..])[1..] == lines[1..];
    }
  }

  lemma {:induction false} ReadIsProper(s: string)
    ensures AllFlat(LinesOf(s)) && AllTerminators(EndsOf(s))
  {
    if s != "" {
      ReadIsProper(s[1..]);
    }
  }

  lemma {:induction false} ReadFlat(p: string, rest: string)
    requires Flat(p)
    ensures LinesOf(p + rest) == [p + LinesOf(rest)[0]] + LinesOf(rest)[1..]
    ensures EndsOf(p + rest) == EndsOf(rest)
  {
    if p == "" {
      assert p + rest == rest;
      assert p + LinesOf(rest)[0] == LinesOf(rest)[0];
    } else {
      assert (p + rest)[1..] == p[1..] + rest;
      ReadFlat(p[1..], rest);
      assert [p[0]] + (p[1..] + LinesOf(rest)[0]) == p + LinesOf(rest)[0];
      assert "" + EndsOf(rest) == EndsOf(rest);
    }
  }

  lemma ReadLine(p: string, t: char, rest: string)
    requires Flat(p) && IsTerminator(t)
    ensures LinesOf(p + [t] + rest) == [p] + LinesOf(rest)
    ensures EndsOf(p + [t] + rest) == [t] + EndsOf(rest)
  {
    var tail := [t] + rest;
    assert p + [t] + rest == p + tail;
    assert tail[1..] == rest;
    ReadFlat(p, tail);
    assert LinesOf(tail) == [""] + LinesOf(rest);
    assert p + "" == p;
  }

  /** Lines without terminators are read back. */
  lemma {:induction false} ReadUnlines(lines: Lines, ends: string)
    requires |lines| == |ends| + 1 && AllFlat(lines) && AllTerminators(ends)
    ensures LinesOf(Unlines(lines, ends)) == lines && EndsOf(Unlines(lines, ends)) == ends
    decreases |ends|
  {
    if ends == "" {
      ReadFlat(lines[0], "");
      assert lines[0] + "" == lines[0];
    } else {
      ReadUnlines(lines[1..], ends[1..]);
      ReadLine(lines[0], ends[0], Unlines(lines[1..], ends[1..]));
    }
  }

  /** Files with the same lines and terminators are the same. */
  lemma SameText(s: string, t: string)
    requires LinesOf(s) == LinesOf(t) && EndsOf(s) == EndsOf(t)
    ensures s == t
  {
    UnlinesRead(s);
    UnlinesRead(t);
  }

  // ----- searching -----

  lemma {:induction false} UnlinesIncludes(lines: Lines, ends: string, needle: string)
    requires |lines| == |ends| + 1 && AllTerminators(ends) && Flat(needle) && needle != ""
    ensures Includes(Unlines(lines, ends), needle) <==> TextIncludes(lines, needle)
    decreases |ends|
  {
    if ends != "" {
      UnlinesIncludes(lines[1..], ends[1..], needle);
      TerminatorBetween(lines[0], ends[0], Unlines(lines[1..], ends[1..]), needle);
      MentionsCons(lines, needle);
    } else {
      assert lines == [lines[0]];
    }
  }

  lemma MentionsCons(lines: Lines, needle: string)
    requires lines != []
    ensures TextIncludes(lines, needle) <==> Includes(lines[0], needle) || TextIncludes(lines[1..], needle)
  {
    if TextIncludes(lines[1..], needle) {
      var i :| 0 <= i < |lines[1..]| && Includes(lines[1..][i], needle);
      assert lines[i + 1] == lines[1..][i];
    }
    if TextIncludes(lines, needle) {
      var i :| 0 <= i < |lines| && Includes(lines[i], needle);
      if i > 0 { assert lines[1..][i - 1] == lines[i]; }
    }
  }

  lemma TerminatorBetween(x: string, t: char, rest: string, needle: string)
    requires IsTerminator(t) && Flat(needle) && needle != ""
    ensures Includes(x + [t] + rest, needle) <==> Includes(x, needle) || Includes(rest, needle)
  {
    SealedByLast([t], needle);
    IncludesAround(x, [t], rest, needle);
    if Includes([t], needle) {
      IncludesChars([t], needle, 0);
    }
    if Straddles(x, [t], needle) {
      StraddleChar(x, t, needle);
    }
  }

  lemma StraddleChar(x: string, t: char, needle: string)
    requires Straddles(x, [t], needle)
    ensures t in needle
  {
    var j :| 0 < j < |needle| && EndsWith(x, needle[..j]) && StartsWith([t], needle[j..]);
    assert needle[j..][0] == [t][..|needle| - j][0];
    assert needle[j] == t;
  }

  /** A text without terminators occurs in a file exactly when it occurs in one of its lines. */
  lemma FileIncludes(s: string, needle: string)
    requires Flat(needle) && needle != ""
    ensures Includes(s, needle) <==> TextIncludes(LinesOf(s), needle)
  {
    UnlinesRead(s);
    ReadIsProper(s);
    UnlinesIncludes(LinesOf(s), EndsOf(s), needle);
  }

  // ----- rewriting lines -----

  /** `replace` with an anchored pattern: the first line that matches is replaced, its terminator stays. */
  function ReplaceLine(s: string, e: Edit): string {
    Unlines(Rewrite(LinesOf(s), e), EndsOf(s))
  }

  function ReplaceLines(s: string, edits: seq<Edit>): string
    decreases |edits|
  {
    if edits == [] then s else ReplaceLines(ReplaceLine(s, edits[0]), edits[1..])
  }

  ghost predicate FlatEdits(edits: seq<Edit>) {
    forall k :: 0 <= k < |edits| ==> Flat(edits[k].line)
  }

  lemma ReplaceLineReads(s: string, e: Edit)
    requires Flat(e.line)
    ensures LinesOf(ReplaceLine(s, e)) == Rewrite(LinesOf(s), e) && EndsOf(ReplaceLine(s, e)) == EndsOf(s)
  {
    ReadIsProper(s);
    ReadUnlines(Rewrite(LinesOf(s), e), EndsOf(s));
  }

  lemma {:induction false} ReplaceLinesReads(s: string, edits: seq<Edit>)
    requires FlatEdits(edits)
    ensures LinesOf(ReplaceLines(s, edits)) == RewriteAll(LinesOf(s), edits)
    ensures EndsOf(ReplaceLines(s, edits)) == EndsOf(s)
    decreases |edits|
  {
    if edits != [] {
      ReplaceLineReads(s, edits[0]);
      ReplaceLinesReads(ReplaceLine(s, edits[0]), edits[1..]);
    }
  }

  // ----- trimming the end of a file -----

  lemma TrimEndLonger(a: string, b: string)
    ensures TrimEnd(a + b) == if TrimEnd(b) == "" then TrimEnd(a) else a + TrimEnd(b)
    decreases |b|
  {
    if b == "" {
      assert a + b == a;
    } else {
      var n := |b| - 1;
      assert (a + b)[..|a| + n] == a + b[..n];
      assert (a + b)[|a| + n] == b[n];
      TrimEndLonger(a, b[..n]);
    }
  }

  lemma {:induction false} UnlinesSnoc(lines: Lines, ends: string, t: char, line: string)
    requires |lines| == |ends| + 1
    ensures Unlines(lines + [line], ends + [t]) == Unlines(lines, ends) + [t] + line
    decreases |ends|
  {
    var more, longer := lines + [line], ends + [t];
    if ends == "" {
      assert more[1..] == [line] && longer[1..] == "";
    } else {
      assert more[1..] == lines[1..] + [line] && longer[1..] == ends[1..] + [t];
      UnlinesSnoc(lines[1..], ends[1..], t, line);
    }
  }

  ghost predicate TrimsByLine(lines: Lines, ends: string)
    requires |lines| == |ends| + 1
  {
    var n := |TrimEndText(lines)|;
    1 <= n && TrimEnd(Unlines(lines, ends)) == Unlines(TrimEndText(lines), ends[..n - 1])
  }

  /** `trimEnd` of a file, line by line. */
  lemma {:induction false} TrimEndLines(lines: Lines, ends: string)
    requires |lines| == |ends| + 1 && AllTerminators(ends)
    ensures TrimsByLine(lines, ends)
    decreases |lines|
  {
    var n := |ends|;
    if n > 0 {
      TrimEndLines(lines[..n], ends[..n - 1]);
      assert lines == lines[..n] + [lines[n]] && ends == ends[..n - 1] + [ends[n - 1]];
      TrimSnoc(lines[..n], ends[..n - 1], ends[n - 1], lines[n]);
    } else {
      assert lines == [lines[0]];
      assert TrimEndText(lines) == [TrimEnd(lines[0])];
    }
  }

  lemma TrimSnoc(init: Lines, before: string, t: char, last: string)
    requires |init| == |before| + 1 && IsTerminator(t) && TrimsByLine(init, before)
    ensures TrimsByLine(init + [last], before + [t])
  {
    if TrimEnd(last) == "" {
      TrimBlank(init, before, t, last);
      ShorterEnds(before, t, |TrimEndText(init)| - 1);
    } else {
      TrimKept(init, before, t, last);
      assert (before + [t])[..|before| + 1] == before + [t];
    }
  }

  lemma ShorterEnds(before: string, t: char, n: nat)
    requires n <= |before|
    ensures (before + [t])[..n] == before[..n]
  {
  }

  lemma TrimBlank(init: Lines, before: string, t: char, last: string)
    requires |init| == |before| + 1 && IsTerminator(t) && TrimEnd(last) == ""
    ensures TrimEnd(Unlines(init + [last], before + [t])) == TrimEnd(Unlines(init, before))
    ensures TrimEndText(init + [last]) == TrimEndText(init)
  {
    UnlinesSnoc(init, before, t, last);
    TrimEndLonger(Unlines(init, before) + [t], last);
    TrimEndLonger(Unlines(init, before), [t]);
    TrimEndTextSnoc(init, last);
  }

  lemma TrimKept(init: Lines, before: string, t: char, last: string)
    requires |init| == |before| + 1 && TrimEnd(last) != ""
    ensures TrimEndText(init + [last]) == init + [TrimEnd(last)]
    ensures TrimEnd(Unlines(init + [last], before + [t])) == Unlines(init + [TrimEnd(last)], before + [t])
  {
    UnlinesSnoc(init, before, t, last);
    TrimEndLonger(Unlines(init, before) + [t], last);
    UnlinesSnoc(init, before, t, TrimEnd(last));
    TrimEndTextSnoc(init, last);
  }

  // ----- the line of a key rewritten, or appended -----

  function ReplaceOrAppend(s: string, e: Edit): string {
    if Anchored(LinesOf(s), e.pattern) then ReplaceLine(s, e) else TrimEnd(s) + "\n" + e.line + "\n"
  }

  lemma TrimEndFlat(line: string)
    requires Flat(line)
    ensures Flat(TrimEnd(line))
  {
  }

  lemma {:induction false} TrimEndTextFlat(lines: Lines)
    requires AllFlat(lines)
    ensures AllFlat(TrimEndText(lines))
    decreases |lines|
  {
    if lines != [] {
      var n := |lines| - 1;
      TrimEndFlat(lines[n]);
      TrimEndTextFlat(lines[..n]);
    }
  }

  /** The lines and terminators of a file whose end has been trimmed. */
  lemma TrimEndReads(s: string)
    ensures var n := |TrimEndText(LinesOf(s))|;
            && 1 <= n <= |LinesOf(s)|
            && LinesOf(TrimEnd(s)) == TrimEndText(LinesOf(s)) && EndsOf(TrimEnd(s)) == EndsOf(s)[..n - 1]
  {
    var lines, ends := LinesOf(s), EndsOf(s);
    UnlinesRead(s);
    ReadIsProper(s);
    TrimEndLines(lines, ends);
    TrimEndTextFlat(lines);
    ReadUnlines(TrimEndText(lines), ends[..|TrimEndText(lines)| - 1]);
  }

  lemma AppendReads(s: string, line: string)
    requires Flat(line)
    ensures LinesOf(s + "\n" + line + "\n") == LinesOf(s) + [line, ""]
    ensures EndsOf(s + "\n" + line + "\n") == EndsOf(s) + "\n\n"
  {
    var lines, ends := LinesOf(s), EndsOf(s);
    UnlinesRead(s);
    ReadIsProper(s);
    UnlinesSnoc(lines, ends, '\n', line);
    UnlinesSnoc(lines + [line], ends + ['\n'], '\n', "");
    var all := s + "\n" + line + "\n";
    assert s + ['\n'] + line + ['\n'] + "" == all;
    assert lines + [line] + [""] == lines + [line, ""];
    assert ends + ['\n'] + ['\n'] == ends + "\n\n";
    ReadUnlines(lines + [line, ""], ends + "\n\n");
  }

  lemma ReplaceOrAppendReads(s: string, e: Edit)
    requires Flat(e.line)
    ensures LinesOf(ReplaceOrAppend(s, e)) == RewriteOrAppend(LinesOf(s), e)
    ensures 1 <= |TrimEndText(LinesOf(s))| <= |LinesOf(s)|
    ensures EndsOf(ReplaceOrAppend(s, e))
         == if Anchored(LinesOf(s), e.pattern) then EndsOf(s) else EndsOf(s)[..|TrimEndText(LinesOf(s))| - 1] + "\n\n"
  {
    TrimEndReads(s);
    ReplaceLineReads(s, e);
    AppendReads(TrimEnd(s), e.line);
  }

  // ----- chains on whole files -----

  /** Lines of several keys rewritten, and one more rewritten or appended. */
  function Chain(s: string, edits: seq<Edit>, e: Edit): string {
    ReplaceOrAppend(ReplaceLines(s, edits), e)
  }

  /** The terminators of a file that ends with two new ones. */
  ghost predicate EndsAppended(ends: string, before: string, count: nat) {
    3 <= count <= |before| + 3 && ends == before[..count - 3] + "\n\n"
  }

  lemma ChainReads(s: string, edits: seq<Edit>, e: Edit)
    requires Independent(edits + [e]) && FlatEdits(edits) && Flat(e.line)
    ensures LinesOf(Chain(s, edits, e)) == RewriteOrAppend(RewriteAll(LinesOf(s), edits), e)
    ensures Anchored(LinesOf(s), e.pattern) ==> EndsOf(Chain(s, edits, e)) == EndsOf(s)
    ensures !Anchored(LinesOf(s), e.pattern) ==>
              EndsAppended(EndsOf(Chain(s, edits, e)), EndsOf(s), |LinesOf(Chain(s, edits, e))|)
  {
    var mid := ReplaceLines(s, edits);
    ReplaceLinesReads(s, edits);
    ReplaceOrAppendReads(mid, e);
    ChainShape(LinesOf(s), edits, e);
    AppendedCount(mid, e);
  }

  lemma AppendedCount(s: string, e: Edit)
    requires Flat(e.line)
    ensures !Anchored(LinesOf(s), e.pattern) ==>
              EndsAppended(EndsOf(ReplaceOrAppend(s, e)), EndsOf(s), |LinesOf(ReplaceOrAppend(s, e))|)
  {
    ReplaceOrAppendReads(s, e);
  }

  lemma ChainEndsLastWins(s: string, fa: seq<Edit>, ea: Edit, fb: seq<Edit>, eb: Edit)
    requires Independent(fa + [ea]) && Independent(fb + [eb]) && ea.pattern == eb.pattern
    requires FlatEdits(fa) && Flat(ea.line) && FlatEdits(fb) && Flat(eb.line)
    requires LinesOf(Chain(Chain(s, fa, ea), fb, eb)) == LinesOf(Chain(s, fb, eb))
    ensures EndsOf(Chain(Chain(s, fa, ea), fb, eb)) == EndsOf(Chain(s, fb, eb))
  {
    var first := Chain(s, fa, ea);
    ChainReads(s, fa, ea);
    ChainAnchors(LinesOf(s), fa, ea);
    ChainReads(first, fb, eb);
    ChainReads(s, fb, eb);
    ChainCount(first, fb, eb);
  }

  /** On a file that has the last line, a chain keeps the number of lines. */
  lemma ChainCount(s: string, edits: seq<Edit>, e: Edit)
    requires Independent(edits + [e]) && FlatEdits(edits) && Flat(e.line) && Anchored(LinesOf(s), e.pattern)
    ensures |LinesOf(Chain(s, edits, e))| == |LinesOf(s)|
  {
    ChainReads(s, edits, e);
    ChainShape(LinesOf(s), edits, e);
  }

  /** The last run of such a chain wins, in every character of the file. */
  lemma FileChainLastWins(s: string, fa: seq<Edit>, ea: Edit, fb: seq<Edit>, eb: Edit)
    requires Independent(fa + [ea]) && Independent(fb + [eb]) && SamePatterns(fa, fb) && ea.pattern == eb.pattern
    requires Tidy(fa) && Tidy(fb) && Tidy([ea]) && Tidy([eb])
    requires FlatEdits(fa) && Flat(ea.line) && FlatEdits(fb) && Flat(eb.line)
    ensures Chain(Chain(s, fa, ea), fb, eb) == Chain(s, fb, eb)
  {
    ChainReads(s, fa, ea);
    ChainReads(Chain(s, fa, ea), fb, eb);
    ChainReads(s, fb, eb);
    ChainLastWins(LinesOf(s), fa, ea, fb, eb);
    ChainEndsLastWins(s, fa, ea, fb, eb);
    SameText(Chain(Chain(s, fa, ea), fb, eb), Chain(s, fb, eb));
  }

  /** A chain that ends with one more rewriting. */
  lemma FileErasingLastWins(s: string, ea: seq<Edit>, fa: Edit, eb: seq<Edit>, fb: Edit)
    requires Independent(ea) && Independent(eb) && SamePatterns(ea, eb) && fa.pattern == fb.pattern
    requires SelfErasing(ea, fa) && SelfErasing(eb, fa) && SelfErasing(eb, fb)
    requires FlatEdits(ea) && Flat(fa.line) && FlatEdits(eb) && Flat(fb.line)
    ensures ErasingChain(ErasingChain(s, ea, fa), eb, fb) == ErasingChain(s, eb, fb)
       <==> (!Anchored(LinesOf(s), fa.pattern) || (fa.line == fb.line && MatchesOnce(LinesOf(s), fa.pattern)))
  {
    var first, direct := ErasingChain(s, ea, fa), ErasingChain(s, eb, fb);
    ErasingReads(s, ea, fa);
    ErasingReads(first, eb, fb);
    ErasingReads(s, eb, fb);
    ErasingChainLastWins(LinesOf(s), ea, fa, eb, fb);
    var second := ErasingChain(first, eb, fb);
    if LinesOf(second) == LinesOf(direct) {
      SameText(second, direct);
    }
  }

  function ErasingChain(s: string, edits: seq<Edit>, f: Edit): string {
    ReplaceLine(ReplaceLines(s, edits), f)
  }

  lemma ErasingReads(s: string, edits: seq<Edit>, f: Edit)
    requires FlatEdits(edits) && Flat(f.line)
    ensures LinesOf(ErasingChain(s, edits, f)) == Rewrite(RewriteAll(LinesOf(s), edits), f)
    ensures EndsOf(ErasingChain(s, edits, f)) == EndsOf(s)
  {
    ReplaceLinesReads(s, edits);
    ReplaceLineReads(ReplaceLines(s, edits), f);
  }

  lemma OneLineFile(line: string)
    requires Flat(line)
    ensures LinesOf(line) == [line] && EndsOf(line) == ""
  {
    ReadUnlines([line], "");
  }

  // ----- generated lines -----

  lemma FlatJoin(a: string, b: string)
    requires Flat(a) && Flat(b)
    ensures Flat(a + b)
  {
  }
}
