/** What a run of the selection script writes and deletes, file by file, and what stops it, step by step. */
module RunContents {
  import opened ComposeAgreement
  import opened ComposeGenerator
  import opened EnvGenerator
  import opened OrderedMap
  import opened PackageGenerator
  import opened ProfileContents
  import opened ProfileTemplates
  import opened Results
  import opened ScaffoldRun
  import opened ScaffoldScript
  import opened Selection
  import opened TestComposeGenerator
  import opened TestEnvGenerator
  import opened Yaml

  import Checker = ScaffoldChecker

  // ----- what is written -----

  /** The files that go when another ORM than TypeORM is selected. */
  predicate TypeormOnly(path: string) {
    || path == "src/common/persistence/provide-repository-port.spec.ts"
    || path == "src/common/persistence/provide-repository-port.ts"
    || path == "src/common/persistence/typeorm-repository.adapter.spec.ts"
    || path == "src/common/persistence/typeorm-repository.adapter.ts"
    || path == "src/config/database.config.spec.ts"
    || path == "src/config/database.config.ts"
    || path == "src/config/typeorm-data-source.ts"
    || path == "test/persistence.e2e-spec.ts"
  }

  lemma TypeormOnlyIs(path: string)
    ensures path in TYPEORM_FILES <==> TypeormOnly(path)
  {
  }

  function DatabaseText(d: Database): string {
    match d
    case Postgres => "database: 'postgres'"
    case Mysql => "database: 'mysql'"
    case Mariadb => "database: 'mariadb'"
  }

  function OrmText(o: Orm): string {
    match o
    case Typeorm => "orm: 'typeorm'"
    case Prisma => "orm: 'prisma'"
    case Mikroorm => "orm: 'mikroorm'"
    case Drizzle => "orm: 'drizzle'"
  }

  const SELECTION_HEAD :=
    "import type { ScaffoldConfig } from './scaffold.config.js';\n" + "\n"
    + "/** 생성기가 materialize한 현재 프로젝트 선택. barebones.config.json과 항상 같아야 한다. */\n"
    + "export const activeScaffold: ScaffoldConfig = {\n" + "  rdb: {\n"

  lemma SelectionTexts(c: Choice)
    ensures "database: '" + c.database.Name() + "'" == DatabaseText(c.database)
    ensures "orm: '" + Checker.OrmName(c.orm) + "'" == OrmText(c.orm)
  {
  }

  /** `src/config/active-scaffold.ts` */
  lemma ActiveScaffoldIs(c: Choice)
    ensures ActiveScaffold(c) == SELECTION_HEAD + "    " + DatabaseText(c.database) + ",\n" + "    " + OrmText(c.orm)
              + ",\n" + "  },\n};\n"
  {
    SelectionTexts(c);
  }

  /** A run that is not stopped: every file that both scripts know by name gets its own contents, and the module of
      the application stays. */
  lemma RunWrites(p: Project, c: Choice, templates: Templates)
    requires Apply(p, c, templates).Success?
    ensures p.compose.Some? && p.env.Some? && p.loadTestEnv.Some? && p.manifest.Some?
    ensures GeneratedCompose(p.compose.value, c.database).Success?
    ensures var after := Apply(p, c, templates).value;
            && after.appModule == p.appModule && after.config == Some(c)
            && after.activeScaffold == Some(SELECTION_HEAD + "    " + DatabaseText(c.database) + ",\n" + "    "
                                              + OrmText(c.orm) + ",\n" + "  },\n};\n")
            && after.compose == Some(GeneratedCompose(p.compose.value, c.database).value)
            && after.env == Some(GeneratedEnv(p.env.value, c.database))
            && after.loadTestEnv == Some(GeneratedTestEnv(p.loadTestEnv.value, c.database))
            && after.manifest == Some(Configured(p.manifest.value, c))
            && after.testCompose == Some(Readable(TestComposeOf(c.database)))
  {
    ActiveScaffoldIs(c);
  }

  /** Every other path after a run: deleted when it is TypeORM's and another ORM is selected, the rendered text when
      it belongs to the profile, and otherwise as it was. */
  lemma FileAfterRun(p: Project, c: Choice, templates: Templates, path: string)
    requires Apply(p, c, templates).Success?
    ensures Profile(c, templates).Success?
    ensures TextAt(Apply(p, c, templates).value.files, path)
         == if c.orm != Typeorm && TypeormOnly(path) then None
            else if path in Profile(c, templates).value then Some(Profile(c, templates).value[path])
            else TextAt(p.files, path)
  {
    TypeormOnlyIs(path);
    FilesAfterAt(p.files, c.orm, Profile(c, templates).value, path);
  }

  lemma FilesAfterAt(files: map<string, string>, orm: Orm, profile: map<string, string>, path: string)
    ensures TextAt(FilesAfter(files, orm, profile), path)
         == if orm != Typeorm && path in TYPEORM_FILES then None
            else if path in profile then Some(profile[path])
            else TextAt(files, path)
  {
  }

  // ----- what stops it -----

  /** The files are looked at in a fixed order: package.json, the templates, docker-compose.yml, .env.example,
      test/load-test-env.ts. Each stop means that everything before it was there. */
  lemma RunStopsAt(p: Project, c: Choice, templates: Templates)
    ensures Apply(p, c, templates) == Failure(Missing("package.json")) <==> p.manifest.None?
    ensures p.manifest.Some? && Profile(c, templates).Failure? ==>
              Apply(p, c, templates) == Failure(Missing(Profile(c, templates).error))
    ensures p.manifest.Some? && Profile(c, templates).Success? ==>
              && (p.compose.None? ==> Apply(p, c, templates) == Failure(Missing("docker-compose.yml")))
              && (forall e :: p.compose.Some? && Refused(p.compose.value, e) ==>
                    Apply(p, c, templates) == Failure(Rejected(e)))
              && (p.compose.Some? && Accepted(p.compose.value) ==>
                    && (p.env.None? ==> Apply(p, c, templates) == Failure(Missing(".env.example")))
                    && (p.env.Some? && p.loadTestEnv.None? ==>
                          Apply(p, c, templates) == Failure(Missing("test/load-test-env.ts")))
                    && (p.env.Some? && p.loadTestEnv.Some? ==> Apply(p, c, templates).Success?))
  {
    PathsApart(c, templates);
    if p.compose.Some? {
      RefusalIs(p.compose.value, c.database);
    }
  }

  lemma PathsApart(c: Choice, templates: Templates)
    ensures "docker-compose.yml" != "package.json" && ".env.example" != "package.json"
    ensures "test/load-test-env.ts" != "package.json"
    ensures Profile(c, templates).Failure? ==> Profile(c, templates).error != "package.json"
  {
    assert |"package.json"| == 12 && |"docker-compose.yml"| == 18 && |"test/load-test-env.ts"| == 21;
    assert ".env.example"[0] == '.';
    ProfileStopsIff(c, templates);
    forall path | path in ReadingOrder(c.orm) ensures |path| > 12 {}
  }

  /** What the generator says of a compose file, level by level. */
  ghost predicate Refused(file: File, e: ComposeError) {
    if !Parses(file) then e == InvalidYaml
    else if MapIn(file.root, ["services"]).None? then e == MapMissing("services")
    else if |RdbNames(MapIn(file.root, ["services"]).value)| != 1 then e == NotOneRdb
    else RefusedFor(file.root, RdbNames(MapIn(file.root, ["services"]).value)[0], e)
  }

  ghost predicate RefusedFor(root: Node, current: string, e: ComposeError) {
    var dependencies := MapIn(root, ["services", "app", "depends_on"]);
    var environment := GetIn(root, ["services", "app", "environment"]);
    var volumes := MapIn(root, ["volumes"]);
    if dependencies.None? then e == MapMissing("depends_on")
    else if !Has(dependencies.value, current) then e == EntryMissing(current)
    else if environment.Some? && !environment.value.Map? then e == NotACollection("environment")
    else if volumes.None? then e == MapMissing("volumes")
    else !Has(volumes.value, current + "-data") && e == EntryMissing(current + "-data")
  }

  ghost predicate Accepted(file: File) {
    forall e :: !Refused(file, e)
  }

  /** The services that are named like a database. */
  function RdbNames(services: Entries): seq<string> {
    if services == [] then []
    else (if services[0].key in ["postgres", "mysql", "mariadb"] then [services[0].key] else [])
         + RdbNames(services[1..])
  }

  lemma {:induction false} RdbNamesAre(services: Entries)
    ensures |RdbNames(services)| == |RdbKeys(services)|
    ensures forall i :: 0 <= i < |RdbKeys(services)| ==> RdbNames(services)[i] == RdbKeys(services)[i].Name()
  {
    if services != [] {
      RdbNamesAre(services[1..]);
    }
  }

  lemma RefusalIs(file: File, d: Database)
    ensures forall e :: Refused(file, e) <==> GeneratedCompose(file, d) == Failure(e)
    ensures Accepted(file) <==> GeneratedCompose(file, d).Success?
  {
    if Parses(file) && Services(file.root).Some? {
      RdbNamesAre(Services(file.root).value);
    }
    var r := GeneratedCompose(file, d);
    assert forall e :: Refused(file, e) <==> r == Failure(e);
    if r.Failure? {
      assert Refused(file, r.error);
    }
  }

  // ----- how the commands end it -----

  /** Install, generate Prisma's client, check, lint, type-check: the first that fails ends the run. */
  lemma EndingIs(orm: Orm, succeeds: Command -> bool)
    ensures var ready := succeeds(Install) && (orm == Prisma ==> succeeds(GenerateClient));
            && (Ending(orm, succeeds) == Some(CommandFailed(Install)) <==> !succeeds(Install))
            && (Ending(orm, succeeds) == Some(CommandFailed(GenerateClient))
                <==> succeeds(Install) && orm == Prisma && !succeeds(GenerateClient))
            && (Ending(orm, succeeds) == Some(CommandFailed(CheckScaffold)) <==> ready && !succeeds(CheckScaffold))
            && (Ending(orm, succeeds) == Some(CommandFailed(Lint))
                <==> ready && succeeds(CheckScaffold) && !succeeds(Lint))
            && (Ending(orm, succeeds) == Some(CommandFailed(Typecheck))
                <==> ready && succeeds(CheckScaffold) && succeeds(Lint) && !succeeds(Typecheck))
            && (Ending(orm, succeeds) == None
                <==> ready && succeeds(CheckScaffold) && succeeds(Lint) && succeeds(Typecheck))
  {
    var last := [CheckScaffold, Lint, Typecheck];
    ThreeCommands(succeeds);
    assert Commands(orm)[0] == Install;
    if orm == Prisma {
      assert Commands(orm)[1..] == [GenerateClient] + last && ([GenerateClient] + last)[1..] == last;
    } else {
      assert Commands(orm)[1..] == last;
    }
  }

  lemma ThreeCommands(succeeds: Command -> bool)
    ensures FirstFailed([CheckScaffold, Lint, Typecheck], succeeds)
         == if !succeeds(CheckScaffold) then Some(CheckScaffold)
            else if !succeeds(Lint) then Some(Lint)
            else if !succeeds(Typecheck) then Some(Typecheck) else None
  {
    assert [CheckScaffold, Lint, Typecheck][1..] == [Lint, Typecheck] && [Lint, Typecheck][1..] == [Typecheck];
    assert [Typecheck][1..] == [];
  }
}
