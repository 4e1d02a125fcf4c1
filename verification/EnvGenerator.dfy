/** The rewriting of `.env.example`. */
module EnvGenerator {
  import opened Selection
  import opened Text
  import opened TextFile

  // ----- .env.example -----

  function Key(name: string): Pattern {
    Pattern(name + "=", "")
  }

  function KeyEdit(name: string, value: string): Edit {
    Edit(Key(name), name + "=" + value)
  }

  /** `databaseUrl(database)` for a process on the host. */
  function HostUrl(d: Database): string {
    (if d == Postgres then "postgresql" else "mysql") + "://app:app@localhost:" + Port(d) + "/app"
  }

  function TypeOrmEnvEdits(d: Database): seq<Edit> {
    [KeyEdit("DB_TYPE", d.Name()), KeyEdit("DOCKER_DB_HOST", d.Name()),
     KeyEdit("DB_PORT", Port(d)), KeyEdit("DB_HOST_PORT", Port(d))]
  }

  function UrlEdit(d: Database): Edit {
    KeyEdit("DATABASE_URL", HostUrl(d))
  }

  function EnvEdits(d: Database): seq<Edit> {
    TypeOrmEnvEdits(d) + [UrlEdit(d)]
  }

  function MaterializeTypeOrmEnv(env: string, d: Database): string {
    ReplaceLines(env, TypeOrmEnvEdits(d))
  }

  /** Rewrites the `DATABASE_URL` line, or appends one after trimming the end of the file. */
  function WithDatabaseUrlEnv(env: string, d: Database): string {
    ReplaceOrAppend(env, UrlEdit(d))
  }

  function GeneratedEnv(env: string, d: Database): string {
    WithDatabaseUrlEnv(MaterializeTypeOrmEnv(env, d), d)
  }

  lemma KeysApart(a: string, b: string, i: nat)
    requires i < |a| && i < |b| && a[i] != b[i]
    ensures Apart(Key(a), Key(b)) && Apart(Key(b), Key(a))
  {
    assert Key(a).prefix[i] != Key(b).prefix[i];
    assert Key(b).prefix[i] != Key(a).prefix[i];
  }

  lemma KeyEditFits(name: string, value: string)
    ensures KeyEdit(name, value).pattern.Matches(KeyEdit(name, value).line)
  {
    var line := name + "=" + value;
    assert line[..|name| + 1] == name + "=";
    assert line[|line|..] == "";
  }

  function EnvName(i: nat): string
    requires i < 5
  {
    if i == 0 then "DB_TYPE" else if i == 1 then "DOCKER_DB_HOST" else if i == 2 then "DB_PORT"
    else if i == 3 then "DB_HOST_PORT" else "DATABASE_URL"
  }

  lemma EnvKeyApart(a: nat, b: nat)
    requires a < b < 5
    ensures Apart(Key(EnvName(a)), Key(EnvName(b))) && Apart(Key(EnvName(b)), Key(EnvName(a)))
  {
    KeysApart(EnvName(a), EnvName(b), if a == 1 || b == 1 || b == 4 then 1 else 3);
  }

  lemma EnvEditAt(d: Database, i: nat)
    requires i < 5
    ensures EnvEdits(d)[i] == KeyEdit(EnvName(i), EnvValue(d, i))
  {
  }

  lemma EnvEditsIndependent(d: Database)
    ensures Independent(EnvEdits(d)) && Independent(TypeOrmEnvEdits(d))
    ensures forall i :: 0 <= i < 5 ==> EnvEdits(d)[i].pattern == Key(EnvName(i))
  {
    var es := EnvEdits(d);
    forall i | 0 <= i < 5 ensures es[i].pattern == Key(EnvName(i)) && es[i].pattern.Matches(es[i].line) {
      EnvEditAt(d, i);
      KeyEditFits(EnvName(i), EnvValue(d, i));
    }
    forall a, b | 0 <= a < 5 && 0 <= b < 5 && a != b
      ensures Apart(es[a].pattern, es[b].pattern)
    {
      EnvKeyApart(if a < b then a else b, if a < b then b else a);
    }
    FirstFour(d);
  }

  lemma FirstFour(d: Database)
    ensures |TypeOrmEnvEdits(d)| == 4 && forall i :: 0 <= i < 4 ==> TypeOrmEnvEdits(d)[i] == EnvEdits(d)[i]
  {
  }

  lemma KeyPatterns(i: nat)
    requires i < 5
    ensures KeyPattern(Key(EnvName(i)))
  {
    assert Key(EnvName(i)).prefix[|EnvName(i)|] == '=';
  }

  /** No generated value ends in a space, so `trimEnd` leaves a generated line alone. */
  lemma EnvLineTrimmed(name: string, value: string)
    requires value != "" && !IsSpace(value[|value| - 1])
    ensures TrimEnd(KeyEdit(name, value).line) == KeyEdit(name, value).line
  {
    var line := KeyEdit(name, value).line;
    assert line[|line| - 1] == value[|value| - 1];
  }

  function EnvValue(d: Database, i: nat): string
    requires i < 5
  {
    if i < 2 then d.Name() else if i < 4 then Port(d) else HostUrl(d)
  }

  lemma EnvValueEnd(d: Database, i: nat)
    requires i < 5
    ensures EnvValue(d, i) != "" && !IsSpace(EnvValue(d, i)[|EnvValue(d, i)| - 1])
  {
    if i == 4 {
      assert HostUrl(d)[|HostUrl(d)| - 1] == 'p';
    }
  }

  lemma EnvEditTidy(d: Database, i: nat)
    requires i < 5
    ensures Tidy([EnvEdits(d)[i]])
  {
    assert EnvEdits(d)[i] == KeyEdit(EnvName(i), EnvValue(d, i));
    EnvValueEnd(d, i);
    EnvLineTrimmed(EnvName(i), EnvValue(d, i));
    KeyPatterns(i);
  }

  lemma EnvEditsTidy(d: Database)
    ensures Tidy(TypeOrmEnvEdits(d)) && Tidy([UrlEdit(d)])
  {
    var four, es := TypeOrmEnvEdits(d), EnvEdits(d);
    EnvEditTidy(d, 4);
    assert es[4] == UrlEdit(d);
    forall k | 0 <= k < 4
      ensures KeyPattern(four[k].pattern) && TrimEnd(four[k].line) == four[k].line
    {
      EnvEditTidy(d, k);
      assert four[k] == es[k] == [es[k]][0];
    }
  }

  lemma EnvReady(d: Database)
    ensures Independent(TypeOrmEnvEdits(d) + [UrlEdit(d)]) && Tidy(TypeOrmEnvEdits(d)) && Tidy([UrlEdit(d)])
  {
    EnvEditsIndependent(d);
    EnvEditsTidy(d);
  }

  lemma SameEnvPatterns(a: Database, b: Database)
    ensures SamePatterns(TypeOrmEnvEdits(a), TypeOrmEnvEdits(b)) && UrlEdit(a).pattern == UrlEdit(b).pattern
  {
  }

  // ----- no generated line holds a line terminator -----

  lemma NamesFlat(i: nat)
    requires i < 5
    ensures Flat(EnvName(i))
  {
  }

  lemma SchemesFlat(d: Database)
    ensures Flat(d.Name()) && Flat(Port(d)) && Flat(if d == Postgres then "postgresql" else "mysql")
  {
  }

  lemma HostUrlFlat(d: Database)
    ensures Flat(HostUrl(d))
  {
    SchemesFlat(d);
    assert Flat("://app:app@localhost:") && Flat("/app");
    var scheme := if d == Postgres then "postgresql" else "mysql";
    FlatJoin(scheme, "://app:app@localhost:");
    FlatJoin(scheme + "://app:app@localhost:", Port(d));
    FlatJoin(scheme + "://app:app@localhost:" + Port(d), "/app");
  }

  lemma EnvEditFlat(d: Database, i: nat)
    requires i < 5
    ensures Flat(EnvEdits(d)[i].line)
  {
    EnvEditAt(d, i);
    NamesFlat(i);
    SchemesFlat(d);
    HostUrlFlat(d);
    KeyLineFlat(EnvName(i), EnvValue(d, i));
  }

  lemma KeyLineFlat(name: string, value: string)
    requires Flat(name) && Flat(value)
    ensures Flat(KeyEdit(name, value).line)
  {
    FlatJoin(name, "=");
    FlatJoin(name + "=", value);
  }

  lemma EnvEditsFlat(d: Database)
    ensures FlatEdits(TypeOrmEnvEdits(d)) && Flat(UrlEdit(d).line)
  {
    FirstFour(d);
    forall k | 0 <= k < 5 ensures Flat(EnvEdits(d)[k].line) {
      EnvEditFlat(d, k);
    }
    assert EnvEdits(d)[4] == UrlEdit(d);
  }

  /** Selecting for `a` and then for `b` leaves the same `.env.example` as selecting for `b`, in every
      character, whether the `DATABASE_URL` line was already there or had to be appended. */
  lemma GeneratedEnvLastWins(env: string, a: Database, b: Database)
    ensures GeneratedEnv(GeneratedEnv(env, a), b) == GeneratedEnv(env, b)
  {
    EnvReady(a);
    EnvReady(b);
    EnvEditsFlat(a);
    EnvEditsFlat(b);
    SameEnvPatterns(a, b);
    FileChainLastWins(env, TypeOrmEnvEdits(a), UrlEdit(a), TypeOrmEnvEdits(b), UrlEdit(b));
  }

  lemma GeneratedEnvReads(env: string, d: Database)
    ensures LinesOf(GeneratedEnv(env, d)) == RewriteOrAppend(RewriteAll(LinesOf(env), TypeOrmEnvEdits(d)), UrlEdit(d))
  {
    EnvReady(d);
    EnvEditsFlat(d);
    ChainReads(env, TypeOrmEnvEdits(d), UrlEdit(d));
  }

  /** What a selection does not own stays. When the URL line is there, every line that is not the first of its key
      keeps its text, its place and its terminator. When it is not, the same holds up to the end of the file,
      which is trimmed and followed by the new line. */
  lemma GeneratedEnvStays(env: string, d: Database)
    requires Anchored(LinesOf(env), Key("DATABASE_URL"))
    ensures var lines, out := LinesOf(env), LinesOf(GeneratedEnv(env, d));
            && |out| == |lines| && EndsOf(GeneratedEnv(env, d)) == EndsOf(env)
            && forall i :: 0 <= i < |lines| && Untouched(lines, EnvEdits(d), i) ==> out[i] == lines[i]
  {
    EnvReady(d);
    EnvEditsFlat(d);
    ChainReads(env, TypeOrmEnvEdits(d), UrlEdit(d));
    ChainShape(LinesOf(env), TypeOrmEnvEdits(d), UrlEdit(d));
    RewriteAllKeeps(LinesOf(env), EnvEdits(d));
  }

  lemma AppendedEnvStays(env: string, d: Database)
    requires !Anchored(LinesOf(env), Key("DATABASE_URL"))
    ensures var lines, out := LinesOf(env), LinesOf(GeneratedEnv(env, d));
            var n := |out| - 2;
            && 0 < n <= |lines| && out[n..] == [UrlEdit(d).line, ""]
            && EndsOf(GeneratedEnv(env, d)) == EndsOf(env)[..n - 1] + "\n\n"
            && forall i :: 0 <= i < |lines| && Untouched(lines, TypeOrmEnvEdits(d), i) ==> TrimmedLine(lines, out, n, i)
  {
    var lines, four := LinesOf(env), TypeOrmEnvEdits(d);
    EnvReady(d);
    EnvEditsIndependent(d);
    EnvEditsFlat(d);
    ChainReads(env, four, UrlEdit(d));
    AppendedKeeps(lines, four, UrlEdit(d));
  }

  // ----- what the checker looks for in .env.example -----

  function EnvNeedle(d: Database): string {
    "DB_TYPE=" + d.Name()
  }

  /** The line of the file that decides: an anchored `DB_TYPE=` line, or a line outside the
      generator's reach that mentions the right value anyway. */
  ghost predicate EnvSelectable(env: string, d: Database) {
    var lines := LinesOf(env);
    || Anchored(lines, Key("DB_TYPE"))
    || exists i :: 0 <= i < |lines| && Untouched(lines, EnvEdits(d), i) && Includes(lines[i], EnvNeedle(d))
  }

  lemma EnvLinesMention(d: Database, i: nat)
    requires i < 5
    ensures Includes(EnvEdits(d)[i].line, EnvNeedle(d)) <==> i == 0
  {
    var line := EnvEdits(d)[i].line;
    if i == 0 {
      IncludesAt(line, "", EnvNeedle(d), "");
    } else if Includes(line, EnvNeedle(d)) {
      IncludesChars(line, EnvNeedle(d), 4);
      UppercaseYFree(d, i);
    }
  }

  lemma UppercaseYFree(d: Database, i: nat)
    requires 0 < i < 5
    ensures 'Y' !in EnvEdits(d)[i].line
  {
    assert EnvEdits(d)[i].line == EnvName(i) + "=" + EnvValue(d, i);
    NamesYFree(i);
    ValuesYFree(d);
  }

  lemma NamesYFree(i: nat)
    requires 0 < i < 5
    ensures 'Y' !in EnvName(i)
  {
  }

  lemma ValuesYFree(d: Database)
    ensures 'Y' !in d.Name() && 'Y' !in Port(d) && 'Y' !in HostUrl(d)
  {
    var scheme := if d == Postgres then "postgresql" else "mysql";
    assert 'Y' !in scheme && 'Y' !in "://app:app@localhost:" && 'Y' !in "/app";
    assert HostUrl(d) == scheme + "://app:app@localhost:" + Port(d) + "/app";
  }

  /** The generated `.env.example` mentions `DB_TYPE=<selected>` exactly when the file was selectable. */
  lemma GeneratedEnvMentions(env: string, d: Database)
    ensures Includes(GeneratedEnv(env, d), EnvNeedle(d)) <==> EnvSelectable(env, d)
  {
    NeedleFlat(d);
    NeedleEnd(d);
    FileIncludes(GeneratedEnv(env, d), EnvNeedle(d));
    GeneratedEnvReads(env, d);
    LinesMention(LinesOf(env), d);
  }

  lemma NeedleFlat(d: Database)
    ensures Flat(EnvNeedle(d))
  {
    SchemesFlat(d);
    assert Flat("DB_TYPE=");
    FlatJoin("DB_TYPE=", d.Name());
  }

  lemma LinesMention(lines: Lines, d: Database)
    ensures TextIncludes(RewriteOrAppend(RewriteAll(lines, TypeOrmEnvEdits(d)), UrlEdit(d)), EnvNeedle(d)) <==>
              (Anchored(lines, Key("DB_TYPE"))
               || exists i :: 0 <= i < |lines| && Untouched(lines, EnvEdits(d), i) && Includes(lines[i], EnvNeedle(d)))
  {
    EnvEditsIndependent(d);
    var es, needle := EnvEdits(d), EnvNeedle(d);
    forall i | 0 <= i < 5 ensures Includes(es[i].line, needle) <==> i == 0 {
      EnvLinesMention(d, i);
    }
    RewriteAllMentions(lines, es, needle);
    NeedleEnd(d);
    assert !Includes(es[4].line, needle);
    ChainMentions(lines, TypeOrmEnvEdits(d), UrlEdit(d), needle);
    assert es[0].pattern == Key("DB_TYPE");
  }

  lemma NeedleEnd(d: Database)
    ensures EnvNeedle(d) != "" && !IsSpace(EnvNeedle(d)[|EnvNeedle(d)| - 1])
  {
    assert EnvNeedle(d)[|EnvNeedle(d)| - 1] == d.Name()[|d.Name()| - 1];
  }

  const COMMENTED := "#DB_TYPE=postgres"

  /** A key that does not start its line is out of the generator's reach: this file keeps naming `postgres`,
      whatever is selected. */
  lemma UnanchoredEnvKeepsOldType(d: Database)
    requires d != Postgres
    ensures Includes(COMMENTED, EnvNeedle(Postgres)) && !EnvSelectable(COMMENTED, d)
    ensures Includes(GeneratedEnv(COMMENTED, d), EnvNeedle(Postgres))
    ensures !Includes(GeneratedEnv(COMMENTED, d), EnvNeedle(d))
  {
    CommentedKey(d);
    CommentFlat();
    NotSelectable(COMMENTED, d);
    GeneratedEnvMentions(COMMENTED, d);
    OneLineFile(COMMENTED);
    CommentStays(d);
    GeneratedEnvReads(COMMENTED, d);
    NeedleFlat(Postgres);
    NeedleEnd(Postgres);
    FileIncludes(GeneratedEnv(COMMENTED, d), EnvNeedle(Postgres));
  }

  /** No pattern of the generator matches the commented line. */
  lemma CommentUntouched(d: Database)
    ensures Untouched([COMMENTED], EnvEdits(d), 0)
  {
    EnvEditsIndependent(d);
    forall k | 0 <= k < 5 ensures FirstMatch([COMMENTED], EnvEdits(d)[k].pattern) != 0 {
      assert Key(EnvName(k)).prefix[0] == 'D';
      assert COMMENTED[0] == '#';
      NotMatching(Key(EnvName(k)), COMMENTED, 0);
    }
  }

  lemma CommentStays(d: Database)
    ensures TextIncludes(RewriteOrAppend(RewriteAll([COMMENTED], TypeOrmEnvEdits(d)), UrlEdit(d)), EnvNeedle(Postgres))
  {
    var es, needle := EnvEdits(d), EnvNeedle(Postgres);
    EnvEditsIndependent(d);
    CommentUntouched(d);
    PostgresNamed();
    assert Includes([COMMENTED][0], needle);
    RewriteAllMentions([COMMENTED], es, needle);
    UrlLacksType(d);
    NeedleEnd(Postgres);
    ChainMentions([COMMENTED], TypeOrmEnvEdits(d), UrlEdit(d), needle);
  }

  lemma UrlLacksType(d: Database)
    ensures !Includes(UrlEdit(d).line, EnvNeedle(Postgres))
  {
    UppercaseYFree(d, 4);
    assert EnvEdits(d)[4] == UrlEdit(d);
    if Includes(UrlEdit(d).line, EnvNeedle(Postgres)) {
      IncludesChars(UrlEdit(d).line, EnvNeedle(Postgres), 4);
    }
  }

  lemma CommentFlat()
    ensures Flat(COMMENTED)
  {
  }

  lemma CommentedKey(d: Database)
    requires d != Postgres
    ensures !Key("DB_TYPE").Matches(COMMENTED) && !Includes(COMMENTED, EnvNeedle(d))
    ensures Includes(COMMENTED, EnvNeedle(Postgres))
  {
    assert COMMENTED[0] == '#';
    NotMatching(Key("DB_TYPE"), COMMENTED, 0);
    PostgresNamed();
    NotNamed(d);
  }

  lemma PostgresNamed()
    ensures Includes(COMMENTED, EnvNeedle(Postgres))
  {
    assert COMMENTED == "#" + EnvNeedle(Postgres) + "";
    IncludesAt(COMMENTED, "#", EnvNeedle(Postgres), "");
  }

  lemma NotNamed(d: Database)
    requires d != Postgres
    ensures !Includes(COMMENTED, EnvNeedle(d))
  {
    if Includes(COMMENTED, EnvNeedle(d)) {
      IncludesChars(COMMENTED, EnvNeedle(d), 8);
    }
  }

  lemma NotSelectable(line: string, d: Database)
    requires Flat(line) && !Key("DB_TYPE").Matches(line) && !Includes(line, EnvNeedle(d))
    ensures !EnvSelectable(line, d)
  {
    OneLineFile(line);
    FirstMatchIs([line], Key("DB_TYPE"), 1);
  }
}
