/** The lines that the generator writes into `.env.example` and `test/load-test-env.ts`, word by word. */
module EnvContents {
  import opened EnvGenerator
  import opened ProfileContents
  import opened Selection
  import opened TestEnvGenerator
  import opened Text
  import opened TextFile

  /** The first line of the source that fits `p`, if there is one, reads `text` afterwards. */
  ghost predicate Becomes(lines: Lines, out: Lines, p: Pattern, text: string) {
    Anchored(lines, p) ==> FirstMatch(lines, p) < |out| && out[FirstMatch(lines, p)] == text
  }

  // ----- .env.example -----

  lemma ChainSays(lines: Lines, edits: seq<Edit>, e: Edit, k: nat)
    requires Independent(edits + [e]) && Tidy(edits) && lines != [] && k < |edits|
    ensures Becomes(lines, RewriteOrAppend(RewriteAll(lines, edits), e), edits[k].pattern, edits[k].line)
  {
    ChainShape(lines, edits, e);
    if Anchored(lines, e.pattern) {
      assert (edits + [e])[k] == edits[k];
      RewriteAllKeeps(lines, edits + [e]);
    } else {
      AppendSays(lines, edits, e, k);
    }
  }

  lemma AppendSays(lines: Lines, edits: seq<Edit>, e: Edit, k: nat)
    requires Independent(edits + [e]) && Tidy(edits) && lines != [] && k < |edits|
    ensures Becomes(lines, TrimEndText(RewriteAll(lines, edits)) + [e.line, ""], edits[k].pattern, edits[k].line)
  {
    var p, mid := edits[k].pattern, RewriteAll(lines, edits);
    var i := FirstMatch(lines, p);
    IndependentInit(edits, e);
    RewriteAllKeeps(lines, edits);
    TrimEndTextKeeps(mid);
    if i < |lines| {
      assert mid[i] == edits[k].line;
      TrimEndKeepsKey(mid[i], p);
    }
  }

  lemma ChainSaysLast(lines: Lines, edits: seq<Edit>, e: Edit)
    requires Independent(edits + [e]) && lines != []
    ensures var out := RewriteOrAppend(RewriteAll(lines, edits), e);
            && Becomes(lines, out, e.pattern, e.line)
            && (!Anchored(lines, e.pattern) ==> |out| > 2 && out[|out| - 2..] == [e.line, ""])
  {
    ChainShape(lines, edits, e);
    assert (edits + [e])[|edits|] == e;
    RewriteAllKeeps(lines, edits + [e]);
    TrimEndTextKeeps(RewriteAll(lines, edits));
  }

  function TypeLine(d: Database): string {
    match d
    case Postgres => "DB_TYPE=postgres"
    case Mysql => "DB_TYPE=mysql"
    case Mariadb => "DB_TYPE=mariadb"
  }

  function HostLine(d: Database): string {
    match d
    case Postgres => "DOCKER_DB_HOST=postgres"
    case Mysql => "DOCKER_DB_HOST=mysql"
    case Mariadb => "DOCKER_DB_HOST=mariadb"
  }

  lemma NameLines(d: Database)
    ensures KeyEdit("DB_TYPE", d.Name()) == Edit(Pattern("DB_TYPE=", ""), TypeLine(d))
    ensures KeyEdit("DOCKER_DB_HOST", d.Name()) == Edit(Pattern("DOCKER_DB_HOST=", ""), HostLine(d))
  {
  }

  lemma PortLines(d: Database)
    ensures KeyEdit("DB_PORT", Port(d)) == Edit(Pattern("DB_PORT=", ""), "DB_PORT=" + PortOf(d))
    ensures KeyEdit("DB_HOST_PORT", Port(d)) == Edit(Pattern("DB_HOST_PORT=", ""), "DB_HOST_PORT=" + PortOf(d))
  {
  }

  lemma UrlLine(d: Database)
    ensures UrlEdit(d) == Edit(Pattern("DATABASE_URL=", ""), "DATABASE_URL=" + AddressOf(d))
  {
    AddressIs(d);
  }

  /** The type, the host inside the compose network, both ports, and the URL for a process on the host, which gets a
      line of its own at the end when the file has none. */
  lemma EnvSays(env: string, d: Database)
    ensures var lines, out := LinesOf(env), LinesOf(GeneratedEnv(env, d));
            && Becomes(lines, out, Pattern("DB_TYPE=", ""), TypeLine(d))
            && Becomes(lines, out, Pattern("DOCKER_DB_HOST=", ""), HostLine(d))
            && Becomes(lines, out, Pattern("DB_PORT=", ""), "DB_PORT=" + PortOf(d))
            && Becomes(lines, out, Pattern("DB_HOST_PORT=", ""), "DB_HOST_PORT=" + PortOf(d))
            && Becomes(lines, out, Pattern("DATABASE_URL=", ""), "DATABASE_URL=" + AddressOf(d))
            && (!Anchored(lines, Pattern("DATABASE_URL=", "")) ==>
                  |out| > 2 && out[|out| - 2..] == ["DATABASE_URL=" + AddressOf(d), ""])
  {
    var lines, four := LinesOf(env), TypeOrmEnvEdits(d);
    EnvReady(d);
    GeneratedEnvReads(env, d);
    NameLines(d);
    PortLines(d);
    UrlLine(d);
    ChainSays(lines, four, UrlEdit(d), 0);
    ChainSays(lines, four, UrlEdit(d), 1);
    ChainSays(lines, four, UrlEdit(d), 2);
    ChainSays(lines, four, UrlEdit(d), 3);
    ChainSaysLast(lines, four, UrlEdit(d));
  }

  // ----- test/load-test-env.ts -----

  lemma ErasingSays(lines: Lines, edits: seq<Edit>, f: Edit)
    requires Independent(edits) && SelfErasing(edits, f)
    ensures var out := Rewrite(RewriteAll(lines, edits), f);
            && Becomes(lines, out, f.pattern, f.line)
            && forall k :: 0 <= k < |edits| ==> Becomes(lines, out, edits[k].pattern, edits[k].line)
  {
    RewriteAllKeeps(lines, edits);
    RewriteAllKeepsMatches(lines, edits, f.pattern);
    forall k | 0 <= k < |edits| && Anchored(lines, edits[k].pattern) && Anchored(lines, f.pattern)
      ensures FirstMatch(lines, edits[k].pattern) != FirstMatch(lines, f.pattern)
    {
      ApartExcludes(edits[k].pattern, f.pattern, lines[FirstMatch(lines, edits[k].pattern)]);
    }
  }

  lemma TypeSays(d: Database)
    ensures TypeEdit(d) == Edit(Pattern("process.env.DB_TYPE = '", "';"), "process.env.DB_TYPE = '" + d.Name() + "';")
  {
  }

  lemma PortSays()
    ensures PortEdit() == Edit(Pattern("process.env.DB_PORT ??= '", "';"), "process.env.DB_PORT ??= '15432';")
  {
    assert "process.env.DB_PORT ??= '" + "15432" + "';" == "process.env.DB_PORT ??= '15432';";
  }

  lemma CommentSays(d: Database)
    ensures CommentEdit(d) == Edit(Pattern("// E2E는 인메모리 DB 대신", ""),
                                   "// E2E는 인메모리 DB 대신" + " docker-compose의 실제 " + d.Name() + "를 사용한다.")
    ensures StaleEdit(d) == Edit(Pattern("// compose 안에서는 이미 DB_HOST=", ""),
                                 "// compose 안에서는 DB_HOST=" + d.Name() + "가 주입되고, 호스트 실행은 localhost를 쓴다.")
  {
  }

  /** The type, the port of the test database, and the two comments that name the database. */
  lemma TestEnvSays(source: string, d: Database)
    ensures var lines, out := LinesOf(source), LinesOf(GeneratedTestEnv(source, d));
            && Becomes(lines, out, Pattern("process.env.DB_TYPE = '", "';"),
                       "process.env.DB_TYPE = '" + d.Name() + "';")
            && Becomes(lines, out, Pattern("process.env.DB_PORT ??= '", "';"), "process.env.DB_PORT ??= '15432';")
            && Becomes(lines, out, Pattern("// E2E는 인메모리 DB 대신", ""),
                       "// E2E는 인메모리 DB 대신" + " docker-compose의 실제 " + d.Name() + "를 사용한다.")
            && Becomes(lines, out, Pattern("// compose 안에서는 이미 DB_HOST=", ""),
                       "// compose 안에서는 DB_HOST=" + d.Name() + "가 주입되고, 호스트 실행은 localhost를 쓴다.")
  {
    var lines, es := LinesOf(source), TestEnvEdits(d);
    TestEnvFlat(d);
    ErasingReads(source, es, StaleEdit(d));
    EditsApart(d);
    StaleErases(d, d);
    ErasingSays(lines, es, StaleEdit(d));
    TypeSays(d);
    PortSays();
    CommentSays(d);
    assert es[0] == TypeEdit(d) && es[1] == PortEdit() && es[2] == CommentEdit(d);
  }
}
