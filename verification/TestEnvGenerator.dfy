/** `materializeTestDatabaseEnv`: the four `replace` calls on `test/load-test-env.ts`. */
module TestEnvGenerator {
  import opened Selection
  import opened Text
  import opened TextFile

  const TYPE_PREFIX := "process.env.DB_TYPE = '"
  const PORT_PREFIX := "process.env.DB_PORT ??= '"
  const COMMENT_PREFIX := "// E2E는 인메모리 DB 대신"
  const STALE_PREFIX := "// compose 안에서는 이미 DB_HOST="

  function TypeEdit(d: Database): Edit {
    Edit(Pattern(TYPE_PREFIX, "';"), TYPE_PREFIX + d.Name() + "';")
  }

  function PortEdit(): Edit {
    Edit(Pattern(PORT_PREFIX, "';"), PORT_PREFIX + "15432" + "';")
  }

  function CommentEdit(d: Database): Edit {
    Edit(Pattern(COMMENT_PREFIX, ""), COMMENT_PREFIX + " docker-compose의 실제 " + d.Name() + "를 사용한다.")
  }

  /** The replacement drops the word that the pattern asks for, so it can be applied only once. */
  function StaleEdit(d: Database): Edit {
    Edit(Pattern(STALE_PREFIX, ""), "// compose 안에서는 DB_HOST=" + d.Name() + "가 주입되고, 호스트 실행은 localhost를 쓴다.")
  }

  function TestEnvEdits(d: Database): seq<Edit> {
    [TypeEdit(d), PortEdit(), CommentEdit(d)]
  }

  function GeneratedTestEnv(source: string, d: Database): string {
    ReplaceLine(ReplaceLines(source, TestEnvEdits(d)), StaleEdit(d))
  }

  lemma Framed(prefix: string, middle: string, suffix: string)
    ensures Pattern(prefix, suffix).Matches(prefix + middle + suffix)
  {
    var line := prefix + middle + suffix;
    assert line[..|prefix|] == prefix && line[|line| - |suffix|..] == suffix;
  }

  lemma DifferAt(p: Pattern, q: Pattern, i: nat)
    requires i < |p.prefix| && i < |q.prefix| && p.prefix[i] != q.prefix[i]
    ensures Apart(p, q) && Apart(q, p)
  {
    assert q.prefix[i] != p.prefix[i];
  }

  lemma PrefixesDiffer()
    ensures |TYPE_PREFIX| > 15 && |PORT_PREFIX| > 15 && |COMMENT_PREFIX| > 15 && |STALE_PREFIX| > 15
    ensures TYPE_PREFIX[0] == PORT_PREFIX[0] == 'p' && COMMENT_PREFIX[0] == STALE_PREFIX[0] == '/'
    ensures TYPE_PREFIX[15] == 'T' && PORT_PREFIX[15] == 'P' && COMMENT_PREFIX[3] == 'E' && STALE_PREFIX[3] == 'c'
  {
  }

  lemma EditsFit(d: Database)
    ensures TypeEdit(d).pattern.Matches(TypeEdit(d).line) && PortEdit().pattern.Matches(PortEdit().line)
    ensures CommentEdit(d).pattern.Matches(CommentEdit(d).line)
  {
    Framed(TYPE_PREFIX, d.Name(), "';");
    Framed(PORT_PREFIX, "15432", "';");
    var rest := " docker-compose의 실제 " + d.Name() + "를 사용한다.";
    Framed(COMMENT_PREFIX, rest, "");
    assert CommentEdit(d).line == COMMENT_PREFIX + rest + "";
  }

  lemma EditsApart(d: Database)
    ensures Independent(TestEnvEdits(d))
  {
    EditsFit(d);
    PatternsApart(TypeEdit(d).pattern, PortEdit().pattern, CommentEdit(d).pattern);
    ThreeIndependent(TypeEdit(d), PortEdit(), CommentEdit(d));
  }

  lemma ThreeIndependent(e: Edit, f: Edit, g: Edit)
    requires e.pattern.Matches(e.line) && f.pattern.Matches(f.line) && g.pattern.Matches(g.line)
    requires Apart(e.pattern, f.pattern) && Apart(f.pattern, e.pattern) && Apart(e.pattern, g.pattern)
    requires Apart(g.pattern, e.pattern) && Apart(f.pattern, g.pattern) && Apart(g.pattern, f.pattern)
    ensures Independent([e, f, g])
  {
    var es := [e, f, g];
    assert es[0] == e && es[1] == f && es[2] == g;
  }

  lemma PatternsApart(p: Pattern, q: Pattern, r: Pattern)
    requires p.prefix == TYPE_PREFIX && q.prefix == PORT_PREFIX && r.prefix == COMMENT_PREFIX
    ensures Apart(p, q) && Apart(q, p) && Apart(p, r) && Apart(r, p) && Apart(q, r) && Apart(r, q)
  {
    PrefixesDiffer();
    DifferAt(p, q, 15);
    DifferAt(p, r, 0);
    DifferAt(q, r, 0);
  }

  lemma StaleLine(d: Database)
    ensures |StaleEdit(d).line| > 20 && StaleEdit(d).line[0] == '/' && StaleEdit(d).line[3] == 'c'
    ensures StaleEdit(d).line[16] == 'D' && STALE_PREFIX[16] == '이'
  {
  }

  lemma StaleErases(a: Database, b: Database)
    ensures SelfErasing(TestEnvEdits(a), StaleEdit(b))
  {
    var es, f := TestEnvEdits(a), StaleEdit(b);
    forall k | 0 <= k < 3
      ensures Apart(es[k].pattern, f.pattern) && Apart(f.pattern, es[k].pattern) && !es[k].pattern.Matches(f.line)
    {
      var at := if k == 2 then 3 else 0;
      StaleDiffers(a, b, k);
      DifferAt(es[k].pattern, f.pattern, at);
      NotMatching(es[k].pattern, f.line, at);
    }
    StaleLine(b);
    NotMatching(f.pattern, f.line, 16);
  }

  lemma StaleDiffers(a: Database, b: Database, k: nat)
    requires k < 3
    ensures var at, p, f := (if k == 2 then 3 else 0), TestEnvEdits(a)[k].pattern, StaleEdit(b);
            && at < |p.prefix| && at < |f.pattern.prefix| && at < |f.line|
            && p.prefix[at] != f.pattern.prefix[at] && p.prefix[at] != f.line[at]
  {
    PrefixesDiffer();
    StaleLine(b);
  }

  lemma StaleLinesDiffer(a: Database, b: Database)
    ensures StaleEdit(a).line == StaleEdit(b).line <==> a == b
  {
    assert StaleEdit(a).line[24] == a.Name()[0] && StaleEdit(b).line[24] == b.Name()[0];
    assert StaleEdit(a).line[25] == a.Name()[1] && StaleEdit(b).line[25] == b.Name()[1];
  }

  lemma SameTestPatterns(a: Database, b: Database)
    ensures SamePatterns(TestEnvEdits(a), TestEnvEdits(b))
    ensures StaleEdit(a).pattern == StaleEdit(b).pattern == Pattern(STALE_PREFIX, "")
  {
  }

  // ----- no generated line holds a line terminator -----

  lemma NameFlat(d: Database)
    ensures Flat(d.Name())
  {
  }

  lemma AroundName(a: string, d: Database, b: string)
    requires Flat(a) && Flat(b)
    ensures Flat(a + d.Name() + b)
  {
    NameFlat(d);
    FlatJoin(a, d.Name());
    FlatJoin(a + d.Name(), b);
  }

  lemma PrefixesFlat()
    ensures Flat(TYPE_PREFIX) && Flat(PORT_PREFIX) && Flat("15432") && Flat("';")
  {
  }

  lemma CommentFlat()
    ensures Flat(COMMENT_PREFIX) && Flat(" docker-compose의 실제 ") && Flat("를 사용한다.")
  {
  }

  lemma StaleHeadFlat()
    ensures Flat("// compose 안에서는 DB_HOST=")
  {
  }

  lemma StaleTailFlat()
    ensures Flat("가 주입되고, 호스트 실행은 localhost를 쓴다.")
  {
  }

  lemma TestEnvFlat(d: Database)
    ensures FlatEdits(TestEnvEdits(d)) && Flat(StaleEdit(d).line)
  {
    PrefixesFlat();
    CommentFlat();
    StaleHeadFlat();
    StaleTailFlat();
    AroundName(TYPE_PREFIX, d, "';");
    FlatJoin(PORT_PREFIX, "15432");
    FlatJoin(PORT_PREFIX + "15432", "';");
    FlatJoin(COMMENT_PREFIX, " docker-compose의 실제 ");
    AroundName(COMMENT_PREFIX + " docker-compose의 실제 ", d, "를 사용한다.");
    AroundName("// compose 안에서는 DB_HOST=", d, "가 주입되고, 호스트 실행은 localhost를 쓴다.");
  }

  /** Selecting for `a` and then for `b` leaves the same file as selecting for `b` exactly when no line
      carries the old DB_HOST comment, or `a` is `b` and only one line does. */
  lemma GeneratedTestEnvLastWins(source: string, a: Database, b: Database)
    ensures GeneratedTestEnv(GeneratedTestEnv(source, a), b) == GeneratedTestEnv(source, b) <==>
              (!Anchored(LinesOf(source), Pattern(STALE_PREFIX, ""))
               || (a == b && MatchesOnce(LinesOf(source), Pattern(STALE_PREFIX, ""))))
  {
    EditsApart(a);
    EditsApart(b);
    TestEnvFlat(a);
    TestEnvFlat(b);
    SameTestPatterns(a, b);
    StaleErases(a, a);
    StaleErases(b, a);
    StaleErases(b, b);
    StaleLinesDiffer(a, b);
    FileErasingLastWins(source, TestEnvEdits(a), StaleEdit(a), TestEnvEdits(b), StaleEdit(b));
  }

  /** So the comment keeps naming the first database: `mysql`, then `mariadb`, still says `mysql`. */
  lemma StaleCommentSticks(tail: string, a: Database, b: Database)
    requires a != b
    ensures GeneratedTestEnv(GeneratedTestEnv(STALE_PREFIX + tail, a), b) != GeneratedTestEnv(STALE_PREFIX + tail, b)
  {
    StalePrefixFlat();
    StaleAnchored(tail);
    GeneratedTestEnvLastWins(STALE_PREFIX + tail, a, b);
  }

  lemma StalePrefixFlat()
    ensures Flat(STALE_PREFIX)
  {
  }

  lemma StaleAnchored(tail: string)
    requires Flat(STALE_PREFIX)
    ensures Anchored(LinesOf(STALE_PREFIX + tail), Pattern(STALE_PREFIX, ""))
  {
    var lines, p := LinesOf(STALE_PREFIX + tail), Pattern(STALE_PREFIX, "");
    ReadFlat(STALE_PREFIX, tail);
    Framed(STALE_PREFIX, LinesOf(tail)[0], "");
    assert STALE_PREFIX + LinesOf(tail)[0] + "" == lines[0];
    FirstMatchIs(lines, p, 0);
  }

  /** Every line that is not the first match of one of the four patterns keeps its text, its place and its
      terminator. */
  lemma GeneratedTestEnvStays(source: string, d: Database)
    ensures var lines, out := LinesOf(source), LinesOf(GeneratedTestEnv(source, d));
            && |out| == |lines| && EndsOf(GeneratedTestEnv(source, d)) == EndsOf(source)
            && forall i :: 0 <= i < |lines| ==>
                 Untouched(lines, TestEnvEdits(d), i) && i != FirstMatch(lines, Pattern(STALE_PREFIX, "")) ==>
                   out[i] == lines[i]
  {
    var lines, es := LinesOf(source), TestEnvEdits(d);
    TestEnvFlat(d);
    ErasingReads(source, es, StaleEdit(d));
    EditsApart(d);
    StaleErases(d, d);
    RewriteAllKeeps(lines, es);
    RewriteAllKeepsMatches(lines, es, StaleEdit(d).pattern);
    SameTestPatterns(d, d);
  }

  // ----- what the checker looks for in test/load-test-env.ts -----

  function TestEnvNeedle(d: Database): string {
    TYPE_PREFIX + d.Name() + "'"
  }

  ghost predicate TestEnvSelectable(source: string, d: Database) {
    var lines := LinesOf(source);
    || Anchored(lines, Pattern(TYPE_PREFIX, "';"))
    || exists i :: 0 <= i < |lines| && Untouched(lines, TestEnvEdits(d), i)
         && i != FirstMatch(lines, Pattern(STALE_PREFIX, "")) && Includes(lines[i], TestEnvNeedle(d))
  }

  lemma TestEnvNeedleHasY(d: Database)
    ensures 16 < |TestEnvNeedle(d)| && TestEnvNeedle(d)[16] == 'Y'
  {
  }

  lemma NotInConcat(c: char, x: string, y: string, z: string)
    requires c !in x && c !in y && c !in z
    ensures c !in x + y + z
  {
  }

  lemma PortLineYFree()
    ensures 'Y' !in PortEdit().line
  {
    NotInConcat('Y', PORT_PREFIX, "15432", "';");
  }

  lemma CommentLineYFree(d: Database)
    ensures 'Y' !in CommentEdit(d).line
  {
    NotInConcat('Y', " docker-compose의 실제 ", d.Name(), "를 사용한다.");
    NotInConcat('Y', COMMENT_PREFIX, " docker-compose의 실제 " + d.Name() + "를 사용한다.", "");
    assert CommentEdit(d).line == COMMENT_PREFIX + (" docker-compose의 실제 " + d.Name() + "를 사용한다.") + "";
  }

  lemma StaleLineYFree(d: Database)
    ensures 'Y' !in StaleEdit(d).line
  {
    NotInConcat('Y', "// compose 안에서는 DB_HOST=", d.Name(), "가 주입되고, 호스트 실행은 localhost를 쓴다.");
  }

  lemma TestEnvLinesMention(d: Database)
    ensures Includes(TypeEdit(d).line, TestEnvNeedle(d)) && !Includes(StaleEdit(d).line, TestEnvNeedle(d))
    ensures !Includes(PortEdit().line, TestEnvNeedle(d)) && !Includes(CommentEdit(d).line, TestEnvNeedle(d))
  {
    var needle := TestEnvNeedle(d);
    assert TypeEdit(d).line == "" + needle + ";";
    IncludesAt(TypeEdit(d).line, "", needle, ";");
    TestEnvNeedleHasY(d);
    PortLineYFree();
    CommentLineYFree(d);
    StaleLineYFree(d);
    if Includes(StaleEdit(d).line, needle) { IncludesChars(StaleEdit(d).line, needle, 16); }
    if Includes(PortEdit().line, needle) { IncludesChars(PortEdit().line, needle, 16); }
    if Includes(CommentEdit(d).line, needle) { IncludesChars(CommentEdit(d).line, needle, 16); }
  }

  lemma TestEnvNeedleFlat(d: Database)
    ensures Flat(TestEnvNeedle(d)) && TestEnvNeedle(d) != ""
  {
    PrefixesFlat();
    assert Flat("'");
    AroundName(TYPE_PREFIX, d, "'");
    TestEnvNeedleHasY(d);
  }

  /** The generated file sets the selected type exactly when the file was selectable. */
  lemma GeneratedTestEnvMentions(source: string, d: Database)
    ensures Includes(GeneratedTestEnv(source, d), TestEnvNeedle(d)) <==> TestEnvSelectable(source, d)
  {
    TestEnvNeedleFlat(d);
    FileIncludes(GeneratedTestEnv(source, d), TestEnvNeedle(d));
    TestEnvFlat(d);
    ErasingReads(source, TestEnvEdits(d), StaleEdit(d));
    LinesMention(LinesOf(source), d);
  }

  lemma LinesMention(lines: Lines, d: Database)
    ensures TextIncludes(Rewrite(RewriteAll(lines, TestEnvEdits(d)), StaleEdit(d)), TestEnvNeedle(d)) <==>
              (Anchored(lines, Pattern(TYPE_PREFIX, "';"))
               || exists i :: 0 <= i < |lines| && Untouched(lines, TestEnvEdits(d), i)
                    && i != FirstMatch(lines, Pattern(STALE_PREFIX, "")) && Includes(lines[i], TestEnvNeedle(d)))
  {
    EditsApart(d);
    StaleErases(d, d);
    OnlyTypeMentions(d);
    ErasingMentions(lines, TestEnvEdits(d), StaleEdit(d), TestEnvNeedle(d));
  }

  lemma OnlyTypeMentions(d: Database)
    ensures var es := TestEnvEdits(d);
            && |es| == 3 && es[0].pattern == Pattern(TYPE_PREFIX, "';")
            && StaleEdit(d).pattern == Pattern(STALE_PREFIX, "")
            && !Includes(StaleEdit(d).line, TestEnvNeedle(d))
            && forall k :: 0 <= k < 3 ==> (Includes(es[k].line, TestEnvNeedle(d)) <==> k == 0)
  {
    TestEnvLinesMention(d);
    var es := TestEnvEdits(d);
    assert es[0] == TypeEdit(d) && es[1] == PortEdit() && es[2] == CommentEdit(d);
  }
}
